/**
 * The parser tests' scenarios, on the records of the tests' own batch and
 * transaction: each misuse is refused with its own error, both from a
 * stream of lines and from LF-joined text, and the well-formed file parses
 * to one batch that renders as the tests' batch does.
 */
module ParserScenarios {
  import opened Wrappers
  import opened AbaErrors
  import opened Fields
  import BatchHeaders
  import DetailRecord
  import FileTotal
  import opened Batches
  import opened Parser
  import opened ParserProperties

  /** The batch of the parser tests: BSB 123-345, WPC, John Doe, 466364, Payroll, 210915. */
  function TestHeaders(): Headers
  {
    BatchHeaders.New(BatchHeaders.Attributes(Some("123-345"), Some("WPC"), Some("John Doe"),
      Some("466364"), Some("Payroll"), Some("210915")))
  }

  /** The transaction of the parser tests: a credit of 10000 with a withholding of 10. */
  function TestTransaction(): Transaction
  {
    DetailRecord.New(DetailRecord.Attributes(Some("342-342"), Some("3244654"), Some(" "),
      Some(50), Some(10000), Some("John Doe"), Some("R435564"), Some("453-543"),
      Some("45656733"), Some("Remitter"), Some(10)))
  }

  function TestBatch(): BatchValue
  {
    BatchValue(TestHeaders(), [TestTransaction()])
  }

  /** The tests' descriptive line: the record of their headers. */
  function TestBatchLine(): string { BatchHeaders.Record(TestHeaders()) }

  /** The tests' detail line: the record of their transaction. */
  function TestTransactionLine(): string { DetailRecord.Record(TestTransaction()) }

  /** The tests' file total line: net and credit 10000, debit 0, one transaction. */
  function TestSummaryLine(): string { FileTotal.Record(10000, 10000, 0, 1) }

  function TestSummary(): FileTotal.Summary
  {
    FileTotal.Summary(FileTotal.Bsb, 10000, 10000, 0, 1)
  }

  lemma TestHeadersPlain()
    ensures TestHeaders().bsb.Some? && HasNoBreak(TestHeaders().bsb.value)
    ensures HasNoBreak(TestHeaders().financialInstitution) && HasNoBreak(TestHeaders().userName)
  {
  }

  lemma TestHeadersDigits()
    ensures HasNoBreak(TestHeaders().userId) && HasNoBreak(TestHeaders().description)
    ensures HasNoBreak(TestHeaders().processAt)
  {
  }

  lemma TestHeadersFit()
    ensures BatchHeaders.NoBreaks(TestHeaders()) && BatchHeaders.Valid(TestHeaders())
  {
    TestHeadersPlain();
    TestHeadersDigits();
    assert IsBsb("123-345") by {
      assert AllDigits("123") && AllDigits("345");
    }
    assert AllDigits("466364") && AllDigits("210915");
  }

  lemma TestTransactionAmounts()
    ensures DetailRecord.Fits(TestTransaction())
    ensures DetailRecord.IsCredit(TestTransaction()) && TestTransaction().amount == 10000
  {
  }

  lemma TestTransactionBsbs()
    ensures HasNoBreak(TestTransaction().bsb) && HasNoBreak(TestTransaction().traceBsb)
    ensures HasNoBreak(TestTransaction().indicator)
  {
  }

  lemma TestTransactionAccounts()
    ensures HasNoBreak(TestTransaction().accountNumber)
    ensures HasNoBreak(TestTransaction().traceAccountNumber)
  {
  }

  lemma TestTransactionTexts()
    ensures HasNoBreak(TestTransaction().accountName)
    ensures HasNoBreak(TestTransaction().lodgementReference)
    ensures HasNoBreak(TestTransaction().nameOfRemitter)
  {
  }

  lemma TestTransactionFits()
    ensures DetailRecord.Fits(TestTransaction()) && DetailRecord.NoBreaks(TestTransaction())
    ensures DetailRecord.IsCredit(TestTransaction()) && TestTransaction().amount == 10000
  {
    TestTransactionAmounts();
    TestTransactionBsbs();
    TestTransactionAccounts();
    TestTransactionTexts();
  }

  /** The tests' descriptive line reads as its headers. */
  lemma TestBatchLineRead()
    ensures ReadsAsHeader(TestBatchLine(), BatchHeaders.Decode(TestBatchLine()))
  {
    TestHeadersFit();
    assert TestBatchLine() + "" == TestBatchLine();
    HeaderRecordRead(TestHeaders(), "");
  }

  /** The tests' detail line reads as a transaction. */
  lemma TestTransactionLineRead()
    ensures ReadsAsDetail(TestTransactionLine(), DetailRecord.Decode(TestTransactionLine()))
  {
    TestTransactionFits();
    assert TestTransactionLine() + "" == TestTransactionLine();
    ParseDetailRecord(TestTransaction(), "");
  }

  /** The tests' file total line reads as their summary. */
  lemma TestSummaryLineRead()
    ensures ReadsAsSummary(TestSummaryLine(), TestSummary())
  {
    assert FileTotal.Fits(10000, 10000, 0, 1);
    assert TestSummaryLine() + "" == TestSummaryLine();
    ParseSummaryRecord(10000, 10000, 0, 1, "");
  }

  /** The tests' descriptive line is the `batch_line` literal of the parser tests. */
  lemma TestBatchLineLiteral()
    ensures TestBatchLine()
      == "0" + "123-345" + (("          " + "01" + "WPC" + "       ")
         + ("John Doe                  " + "466364" + "Payroll     " + "210915")
         + "                                        ")
  {
    var h := TestHeaders();
    TestHeaderSlots();
    assert BatchHeaders.BsbField(h.bsb) == "123-345";
    assert BatchHeaders.Institution(h) == "          " + "01" + "WPC" + "       ";
    assert BatchHeaders.Names(h) == "John Doe                  " + "466364" + "Payroll     " + "210915";
  }

  lemma TestHeaderSlots()
    ensures LeftJustify("123-345", 7) == "123-345"
    ensures LeftJustify("WPC", 3) == "WPC"
    ensures LeftJustify("John Doe", 26) == "John Doe                  "
    ensures LeftJustify("466364", 6) == "466364"
    ensures LeftJustify("Payroll", 12) == "Payroll     "
    ensures LeftJustify("210915", 6) == "210915"
    ensures Spaces(10) == "          " && Spaces(7) == "       "
    ensures Spaces(40) == "                                        "
  {
  }

  /** The tests' detail line is the `transaction_line` literal of the parser tests. */
  lemma TestTransactionLineLiteral()
    ensures TestTransactionLine()
      == "1" + "342-342" + "  3244654" + " " + ("50" + "0000010000")
         + ("John Doe                        " + "R435564           ")
         + ("453-543" + " 45656733" + "Remitter        " + "00000010")
  {
    var t := TestTransaction();
    DetailRecord.ExampleRoutingSlots();
    DetailRecord.ExampleNameSlots();
    DetailRecord.ExampleTraceSlots();
    TestTransactionNumbers();
    assert DetailRecord.Routing(t) == "1" + "342-342" + "  3244654" + " ";
    assert DetailRecord.Amounts(t) == "50" + "0000010000";
    assert DetailRecord.Names(t) == "John Doe                        " + "R435564           ";
    assert DetailRecord.Trace(t) == "453-543" + " 45656733" + "Remitter        " + "00000010";
  }

  lemma TestTransactionNumbers()
    ensures ZeroPad(50, 2) == "50"
    ensures ZeroPad(10000, 10) == "0000010000"
    ensures ZeroPad(10, 8) == "00000010"
  {
  }

  /** The tests' file total line is the `summary_line` literal of the parser tests. */
  lemma TestSummaryLineLiteral()
    ensures TestSummaryLine()
      == ("7" + "999-999" + "            ")
         + ("0000010000" + "0000010000" + "0000000000")
         + ("                        " + "000001" + "                                        ")
  {
    TestSummaryNumbers();
    FileTotal.ExampleBlanks();
    FileTotal.ExampleFiller();
    assert FileTotal.Totals(10000, 10000, 0) == "0000010000" + "0000010000" + "0000000000";
  }

  lemma TestSummaryNumbers()
    ensures ZeroPad(10000, 10) == "0000010000"
    ensures ZeroPad(0, 10) == "0000000000"
    ensures ZeroPad(1, 6) == "000001"
  {
  }

  /** The tests' lines are single, non-empty lines. */
  lemma TestBatchLineSingle()
    ensures '\n' !in TestBatchLine() && TestBatchLine() != ""
  {
    TestHeadersFit();
    BatchHeaders.RecordNoBreak(TestHeaders());
  }

  lemma TestTransactionLineSingle()
    ensures '\n' !in TestTransactionLine() && TestTransactionLine() != ""
  {
    TestTransactionFits();
    DetailRecord.RecordNoBreak(TestTransaction());
  }

  lemma TestSummaryLineSingle()
    ensures '\n' !in TestSummaryLine() && TestSummaryLine() != ""
  {
    assert FileTotal.Fits(10000, 10000, 0, 1);
    FileTotal.RecordNoBreak(10000, 10000, 0, 1);
  }

  /** Any descriptive line twice in a row: the first batch was not finished. */
  lemma HeaderTwiceRefused(bl: string)
    requires ReadsAsHeader(bl, BatchHeaders.Decode(bl)) && '\n' !in bl && bl != ""
    ensures ParsedInput(Stream([bl, bl])) == Failure(PreviousBatchUnfinished)
    ensures ParsedInput(Text(Join([bl, bl]))) == Failure(PreviousBatchUnfinished)
  {
    TwoHeadersRefused(bl, BatchHeaders.Decode(bl), bl, BatchHeaders.Decode(bl));
    TextOfTwo(bl, bl);
  }

  /** The tests' descriptive line twice: the first batch was not finished. */
  lemma TwoBatches()
    ensures ParsedInput(Stream([TestBatchLine(), TestBatchLine()])) == Failure(PreviousBatchUnfinished)
    ensures ParsedInput(Text(Join([TestBatchLine(), TestBatchLine()])))
      == Failure(PreviousBatchUnfinished)
  {
    TestBatchLineRead();
    TestBatchLineSingle();
    HeaderTwiceRefused(TestBatchLine());
  }

  /** Any detail line alone, as a stream or as text: a transaction outside any batch. */
  lemma DetailAloneRefused(tl: string, d: Transaction)
    requires ReadsAsDetail(tl, d) && '\n' !in tl && tl != ""
    ensures ParsedInput(Stream([tl])) == Failure(TransactionOutsideBatch)
    ensures ParsedInput(Text(tl)) == Failure(TransactionOutsideBatch)
  {
    LoneDetailRefused(tl, d);
    TextOfOne(tl);
  }

  /** The tests' detail line alone: a transaction outside any batch. */
  lemma TransactionWithoutBatch()
    ensures ParsedInput(Stream([TestTransactionLine()])) == Failure(TransactionOutsideBatch)
    ensures ParsedInput(Text(TestTransactionLine())) == Failure(TransactionOutsideBatch)
  {
    TestTransactionLineRead();
    TestTransactionLineSingle();
    DetailAloneRefused(TestTransactionLine(), DetailRecord.Decode(TestTransactionLine()));
  }

  /** Any file total line alone, as a stream or as text: a summary without a batch. */
  lemma SummaryAloneRefused(sl: string, s: FileTotal.Summary)
    requires ReadsAsSummary(sl, s) && '\n' !in sl && sl != ""
    ensures ParsedInput(Stream([sl])) == Failure(SummaryWithoutBatch)
    ensures ParsedInput(Text(sl)) == Failure(SummaryWithoutBatch)
  {
    LoneSummaryRefused(sl, s);
    TextOfOne(sl);
  }

  /** The tests' file total line alone: a summary without a batch. */
  lemma SummaryWithoutAnyBatch()
    ensures ParsedInput(Stream([TestSummaryLine()])) == Failure(SummaryWithoutBatch)
    ensures ParsedInput(Text(TestSummaryLine())) == Failure(SummaryWithoutBatch)
  {
    TestSummaryLineRead();
    TestSummaryLineSingle();
    SummaryAloneRefused(TestSummaryLine(), TestSummary());
  }

  /** Lines that split back from their LF-joined text parse from the text as from the stream. */
  lemma TextAsStream(ls: seq<string>)
    requires |ls| >= 1 && ls[|ls| - 1] != ""
    requires forall i :: 0 <= i < |ls| ==> '\n' !in ls[i]
    ensures ParsedInput(Text(Join(ls))) == ParsedInput(Stream(ls))
  {
    SplitJoin(ls);
  }

  lemma TextOfOne(a: string)
    requires '\n' !in a && a != ""
    ensures ParsedInput(Text(a)) == ParsedInput(Stream([a]))
  {
    SplitJoin([a]);
  }

  lemma TextOfTwo(a: string, b: string)
    requires '\n' !in a && '\n' !in b && b != ""
    ensures ParsedInput(Text(Join([a, b]))) == ParsedInput(Stream([a, b]))
  {
    TextAsStream([a, b]);
  }

  lemma TextOfThree(a: string, b: string, c: string)
    requires '\n' !in a && '\n' !in b && '\n' !in c && c != ""
    ensures ParsedInput(Text(Join([a, b, c]))) == ParsedInput(Stream([a, b, c]))
  {
    TextAsStream([a, b, c]);
  }

  lemma TextOfFour(a: string, b: string, c: string, d: string)
    requires '\n' !in a && '\n' !in b && '\n' !in c && '\n' !in d && d != ""
    ensures ParsedInput(Text(Join([a, b, c, d]))) == ParsedInput(Stream([a, b, c, d]))
  {
    TextAsStream([a, b, c, d]);
  }

  /** Kept apart so that the parse context of the callers stays small. */
  lemma ThreeParts<T>(a: T, b: T, c: T)
    ensures [a, b, c] == [a] + [b] + [c]
  {
  }

  lemma SameAt<A, B>(x: A, y: A, u: B, v: B, i: nat)
    requires x == y && u == v && i < 2
    ensures [x, y][i] == x && [u, v][i] == u
  {
  }

  /** A detail line once reads as its transaction once. */
  lemma DetailOnceRead(tl: string, d: Transaction)
    requires ReadsAsDetail(tl, d)
    ensures |[tl]| == |[d]|
    ensures forall i :: 0 <= i < |[tl]| ==> ReadsAsDetail([tl][i], [d][i])
  {
  }

  /** A detail line twice reads as its transaction twice. */
  lemma DetailTwiceRead(tl: string, d: Transaction)
    requires ReadsAsDetail(tl, d)
    ensures |[tl, tl]| == |[d, d]|
    ensures forall i :: 0 <= i < |[tl, tl]| ==> ReadsAsDetail([tl, tl][i], [d, d][i])
  {
    forall i | 0 <= i < |[tl, tl]|
      ensures ReadsAsDetail([tl, tl][i], [d, d][i])
    {
      SameAt(tl, tl, d, d, i);
    }
  }

  /** Four lines in the shape one header, two details, one summary, as a stream. */
  lemma StreamOfFour(a: string, b: string, c: string, d: string, r: Result<seq<BatchValue>, ParseError>)
    requires ParsedLines([a] + [b, c] + [d]) == r
    ensures ParsedInput(Stream([a, b, c, d])) == r
  {
    assert [a, b, c, d] == [a] + [b, c] + [d];
  }

  /**
   * A descriptive line, a detail line twice and a file total line counting
   * one transaction: the summary does not match.
   */
  lemma DoubledDetailRefused(bl: string, tl: string, sl: string, d: Transaction, s: FileTotal.Summary)
    requires ReadsAsHeader(bl, BatchHeaders.Decode(bl))
    requires ReadsAsDetail(tl, d)
    requires ReadsAsSummary(sl, s) && s.count == 1
    ensures ParsedInput(Stream([bl, tl, tl, sl])) == Failure(SummaryMismatch)
  {
    var h := BatchHeaders.Decode(bl);
    assert !IsCountOfTransactionsCorrect(s, BatchValue(h, [d, d]));
    DetailTwiceRead(tl, d);
    UnreconciledRefused(bl, [tl, tl], sl, h, [d, d], s);
    StreamOfFour(bl, tl, tl, sl, Failure(SummaryMismatch));
  }

  /** The lines of the mismatch test: a batch, two transactions, a summary of one. */
  function MismatchLines(): seq<string>
  {
    [TestBatchLine(), TestTransactionLine(), TestTransactionLine(), TestSummaryLine()]
  }

  /** The mismatch test: two transactions closed by a summary that counts one. */
  lemma SummaryMismatchesBatch()
    ensures ParsedInput(Stream(MismatchLines())) == Failure(SummaryMismatch)
  {
    TestBatchLineRead();
    TestTransactionLineRead();
    TestSummaryLineRead();
    DoubledDetailRefused(TestBatchLine(), TestTransactionLine(), TestSummaryLine(),
      DetailRecord.Decode(TestTransactionLine()), TestSummary());
  }

  /** The mismatch test on LF-joined text. */
  lemma SummaryMismatchesBatchText()
    ensures ParsedInput(Text(Join(MismatchLines()))) == Failure(SummaryMismatch)
  {
    SummaryMismatchesBatch();
    TestBatchLineSingle();
    TestTransactionLineSingle();
    TestSummaryLineSingle();
    TextOfFour(TestBatchLine(), TestTransactionLine(), TestTransactionLine(), TestSummaryLine());
  }

  /**
   * A descriptive line, one detail line and a file total line that
   * reconciles: exactly the batch they read as.
   */
  lemma OneBatchParses(bl: string, tl: string, sl: string, h: Headers, d: Transaction, s: FileTotal.Summary)
    requires ReadsAsHeader(bl, h) && ReadsAsDetail(tl, d) && ReadsAsSummary(sl, s)
    requires SummaryCompatibleWithBatch(s, BatchValue(h, [d]))
    ensures ParsedInput(Stream([bl, tl, sl])) == Success([BatchValue(h, [d])])
  {
    ThreeParts(bl, tl, sl);
    DetailOnceRead(tl, d);
    RunBatchLines(bl, [tl], sl, h, [d], s);
    ParsedStreamOne([bl, tl, sl], BatchValue(h, [d]));
  }

  /** The lines of the well-formed test file. */
  function GoodLines(): seq<string>
  {
    [TestBatchLine(), TestTransactionLine(), TestSummaryLine()]
  }

  /** A single transaction read back. */
  lemma DecodedSingle(ts: seq<Transaction>, t: Transaction)
    requires ts == [t]
    ensures DecodedAll(ts) == [DetailRecord.Decode(DetailRecord.Record(t))]
  {
    assert |DecodedAll(ts)| == 1;
  }

  /** A batch of one transaction read back. */
  lemma ReparsedSingle(b: BatchValue, t: Transaction)
    requires b.transactions == [t]
    ensures Reparsed(b) == BatchValue(BatchHeaders.Decode(BatchHeaders.Record(b.headers)),
                                      [DetailRecord.Decode(DetailRecord.Record(t))])
  {
    DecodedSingle(b.transactions, t);
  }

  /** The totals of a single transaction are its own parts. */
  lemma SingleSums(ts: seq<Transaction>, t: Transaction)
    requires ts == [t]
    ensures CreditSum(ts) == CreditPart(t) && DebitSum(ts) == DebitPart(t)
  {
    assert ts[..0] == [];
  }

  /** A batch of one credit reconciles with a summary of that credit alone. */
  lemma SingleCreditReconciles(b: BatchValue, t: Transaction)
    requires b.transactions == [t] && DetailRecord.Fits(t) && DetailRecord.IsCredit(t)
    ensures SummaryCompatibleWithBatch(FileTotal.Summary(FileTotal.Bsb, t.amount, t.amount, 0, 1), Reparsed(b))
  {
    SingleSums(b.transactions, t);
    assert !DetailRecord.IsDebit(t);
    ReparsedReconciles(b);
  }

  /** The tests' summary reconciles with their batch read back. */
  lemma TestSummaryReconciles()
    ensures SummaryCompatibleWithBatch(TestSummary(), Reparsed(TestBatch()))
  {
    TestTransactionAmounts();
    SingleCreditReconciles(TestBatch(), TestTransaction());
  }

  /** The well-formed test file parses, as a stream, to the tests' batch read back. */
  lemma GoodStream()
    ensures ParsedInput(Stream(GoodLines())) == Success([Reparsed(TestBatch())])
  {
    TestBatchLineRead();
    TestTransactionLineRead();
    TestSummaryLineRead();
    ReparsedSingle(TestBatch(), TestTransaction());
    TestSummaryReconciles();
    OneBatchParses(TestBatchLine(), TestTransactionLine(), TestSummaryLine(),
      BatchHeaders.Decode(TestBatchLine()), DetailRecord.Decode(TestTransactionLine()), TestSummary());
  }

  /** The well-formed test file, joined by LF, parses to the same batch. */
  lemma GoodText()
    ensures ParsedInput(Text(Join(GoodLines()))) == Success([Reparsed(TestBatch())])
  {
    GoodStream();
    TestBatchLineSingle();
    TestTransactionLineSingle();
    TestSummaryLineSingle();
    TextOfThree(TestBatchLine(), TestTransactionLine(), TestSummaryLine());
  }

  /** A batch of one transaction with single-line fields that fit renders, and so does its read-back, alike. */
  lemma SingleRendersAlike(b: BatchValue, t: Transaction)
    requires b.transactions == [t]
    requires BatchHeaders.NoBreaks(b.headers) && BatchHeaders.Valid(b.headers)
    requires BatchHeaders.SlotsFit(b.headers)
    requires DetailRecord.Fits(t) && DetailRecord.NoBreaks(t) && DetailRecord.SlotsFit(t)
    ensures Render(b).Success?
    ensures Render(Reparsed(b)) == Render(b)
  {
    SingleSums(b.transactions, t);
    assert TotalsFit(b);
    assert RoundTrippable(b);
    RenderReparsed(b);
  }

  /** The batch parsed from the well-formed lines renders as the tests' batch does. */
  lemma GoodRendersAlike()
    ensures Render(TestBatch()).Success?
    ensures Render(Reparsed(TestBatch())) == Render(TestBatch())
  {
    TestHeadersFit();
    TestTransactionFits();
    TestSlotsFit();
    SingleRendersAlike(TestBatch(), TestTransaction());
  }

  lemma TestSlotsFit()
    ensures BatchHeaders.SlotsFit(TestHeaders()) && DetailRecord.SlotsFit(TestTransaction())
  {
  }
}
