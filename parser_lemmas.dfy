/**
 * What the parser promises: line breaks never reach the decoders, blank
 * lines change nothing, batches come out in the order they were closed,
 * every misuse has its own error, and a rendered batch parses back to a
 * batch that renders the same.
 */
module ParserProperties {
  import opened Wrappers
  import opened AbaErrors
  import opened Fields
  import BatchHeaders
  import DetailRecord
  import FileTotal
  import opened Batches
  import opened Parser

  // ------------------------------------------------------------ one line

  /** What may follow a record on its line: nothing, CR, LF or CR LF. */
  predicate IsTerminator(suffix: string) {
    suffix == "" || suffix == "\r" || suffix == "\n" || suffix == "\r\n"
  }

  /** Removing the line breaks of a record and its terminator gives back the record. */
  lemma CleanTerminated(x: string, suffix: string)
    requires HasNoBreak(x) && IsTerminator(suffix)
    ensures RemoveLineBreaks(x + suffix) == x
  {
    DeleteAppend(x, suffix, '\r');
    assert Delete(suffix, '\r') == if suffix == "\r\n" || suffix == "\n" then "\n" else "";
    DeleteAppend(x, Delete(suffix, '\r'), '\n');
  }

  /** Line breaks are gone before classification: a line parses as its cleaned self. */
  lemma LineBreaksIgnored(line: string)
    ensures ParseLine(line) == ParseLine(RemoveLineBreaks(line))
  {
  }

  /** A record on its line is not blank: it starts with its record type. */
  lemma RecordNotBlank(x: string, suffix: string)
    requires |x| > 0 && (x[0] == '0' || x[0] == '1' || x[0] == '7')
    ensures !IsBlank(x + suffix)
  {
    assert (x + suffix)[0] == x[0];
  }

  /** A descriptive record parses as a batch of its decoded headers. */
  lemma ParseHeaderRecord(h: Headers, suffix: string)
    requires BatchHeaders.NoBreaks(h) && IsTerminator(suffix)
    ensures ParseLine(BatchHeaders.Record(h) + suffix)
      == Success(HeaderLine(BatchHeaders.Decode(BatchHeaders.Record(h))))
    ensures !IsBlank(BatchHeaders.Record(h) + suffix)
  {
    BatchHeaders.RecordNoBreak(h);
    CleanTerminated(BatchHeaders.Record(h), suffix);
    RecordNotBlank(BatchHeaders.Record(h), suffix);
  }

  /** A detail record parses as its decoded transaction. */
  lemma ParseDetailRecord(t: Transaction, suffix: string)
    requires DetailRecord.Fits(t) && DetailRecord.NoBreaks(t) && IsTerminator(suffix)
    ensures ParseLine(DetailRecord.Record(t) + suffix)
      == Success(DetailLine(DetailRecord.Decode(DetailRecord.Record(t))))
    ensures !IsBlank(DetailRecord.Record(t) + suffix)
  {
    DetailRecord.RecordNoBreak(t);
    CleanTerminated(DetailRecord.Record(t), suffix);
    RecordNotBlank(DetailRecord.Record(t), suffix);
  }

  /** A file total record parses as the summary of its totals and count. */
  lemma ParseSummaryRecord(net: nat, credit: nat, debit: nat, count: nat, suffix: string)
    requires FileTotal.Fits(net, credit, debit, count) && IsTerminator(suffix)
    ensures ParseLine(FileTotal.Record(net, credit, debit, count) + suffix)
      == Success(SummaryLine(FileTotal.Summary(FileTotal.Bsb, net, credit, debit, count)))
    ensures !IsBlank(FileTotal.Record(net, credit, debit, count) + suffix)
  {
    var r := FileTotal.Record(net, credit, debit, count);
    FileTotal.RecordNoBreak(net, credit, debit, count);
    CleanTerminated(r, suffix);
    RecordNotBlank(r, suffix);
    FileTotal.DecodeRecord(net, credit, debit, count);
  }

  // ---------------------------------------------------------- reconciliation

  /** The totals of a batch fit the slots of its file total record. */
  predicate TotalsFit(b: BatchValue) {
    FileTotal.Fits(Abs(NetTotal(b)), CreditSum(b.transactions), DebitSum(b.transactions),
      |b.transactions|)
  }

  /**
   * A summary reconciles with a batch exactly when, apart from its BSB, it
   * is what the batch's own file total record decodes to.
   */
  lemma CompatibleExactly(s: FileTotal.Summary, b: BatchValue)
    requires TotalsFit(b)
    ensures SummaryCompatibleWithBatch(s, b) <==>
              s.(bsb := FileTotal.Bsb) == FileTotal.Decode(FileTotalRecord(b))
  {
    FileTotalDecodes(b);
  }

  /** The file total record a batch renders closes that batch. */
  lemma RenderedSummaryCloses(c: seq<BatchValue>, b: BatchValue)
    requires TotalsFit(b)
    ensures HandleSummary(State(c, Some(b)), FileTotal.Decode(FileTotalRecord(b)))
      == Success(State(c + [b], None))
  {
    FileTotalDecodes(b);
    var s := FileTotal.Decode(FileTotalRecord(b));
    assert IsNetTotalAmountCorrect(s, b) && IsCreditTotalAmountCorrect(s, b);
    assert IsDebitTotalAmountCorrect(s, b) && IsCountOfTransactionsCorrect(s, b);
  }

  /**
   * The file total record the batch tests expect is refused by the parser
   * as soon as the batch has both credits and debits: its net slot holds
   * their sum, not their difference.
   */
  lemma AsWrittenSummaryRefused(c: seq<BatchValue>, b: BatchValue)
    requires CreditSum(b.transactions) > 0 && DebitSum(b.transactions) > 0
    requires CreditSum(b.transactions) + DebitSum(b.transactions) < Pow10(10)
    requires |b.transactions| < Pow10(6)
    ensures HandleSummary(State(c, Some(b)), FileTotal.Decode(FileTotalRecordAsWritten(b)))
      == Failure(SummaryMismatch)
  {
    AsWrittenDecodes(b);
  }

  /** On the batch tests' batch: the expected record is refused, the corrected one closes it. */
  lemma ScenarioSummaries(c: seq<BatchValue>)
    ensures HandleSummary(State(c, Some(Scenario())), FileTotal.Decode(FileTotalRecordAsWritten(Scenario())))
      == Failure(SummaryMismatch)
    ensures HandleSummary(State(c, Some(Scenario())), FileTotal.Decode(FileTotalRecord(Scenario())))
      == Success(State(c + [Scenario()], None))
  {
    var b := Scenario();
    ScenarioTotals();
    assert Pow10(6) > 4 && Pow10(10) > 100;
    assert TotalsFit(b);
    AsWrittenSummaryRefused(c, b);
    RenderedSummaryCloses(c, b);
  }

  // ---------------------------------------------------------------- runs

  /** A blank line anywhere in the input changes nothing. */
  lemma BlankLineSkipped(st: State, a: seq<string>, blank: string, b: seq<string>)
    requires IsBlank(blank)
    ensures Run(st, a + [blank] + b) == Run(st, a + b)
  {
    assert (a + [blank])[..|a|] == a;
    assert Run(st, a + [blank]) == Run(st, a);
    RunAppend(st, a + [blank], b);
    RunAppend(st, a, b);
  }

  /**
   * One line either leaves the closed batches as they are, or is a file
   * total record reconciling with the open batch, which it appends to them.
   */
  lemma StepEffect(st: State, line: string)
    requires Step(st, line).Success?
    ensures var st' := Step(st, line).value;
      || st'.collection == st.collection
      || (&& st.open.Some? && st'.open.None?
          && st'.collection == st.collection + [st.open.value]
          && ParseLine(line).Success? && ParseLine(line).value.SummaryLine?
          && SummaryCompatibleWithBatch(ParseLine(line).value.summary, st.open.value))
  {
  }

  /**
   * Closed batches are never changed or reordered: a run only appends to
   * the collection, one batch per reconciling file total record.
   */
  lemma {:induction false} CollectionGrows(st: State, lines: seq<string>)
    requires Run(st, lines).Success?
    ensures st.collection <= Run(st, lines).value.collection
  {
    if |lines| > 0 {
      var pre := lines[..|lines| - 1];
      CollectionGrows(st, pre);
      StepEffect(Run(st, pre).value, lines[|lines| - 1]);
    }
  }

  /** No line of `lines` is a file total record. */
  predicate NoSummaryLine(lines: seq<string>) {
    forall i :: 0 <= i < |lines| ==> !(ParseLine(lines[i]).Success? && ParseLine(lines[i]).value.SummaryLine?)
  }

  lemma {:induction false} NoSummaryKeepsCollection(st: State, lines: seq<string>)
    requires NoSummaryLine(lines) && Run(st, lines).Success?
    ensures Run(st, lines).value.collection == st.collection
  {
    if |lines| > 0 {
      var pre := lines[..|lines| - 1];
      assert NoSummaryLine(pre) by {
        forall i | 0 <= i < |pre| ensures pre[i] == lines[i] { }
      }
      NoSummaryKeepsCollection(st, pre);
      StepEffect(Run(st, pre).value, lines[|lines| - 1]);
    }
  }

  /**
   * A batch opened after the last file total record is not returned: lines
   * without a file total record add nothing to the output.
   */
  lemma DanglingBatchDropped(lines: seq<string>, more: seq<string>)
    requires ParsedLines(lines).Success? && NoSummaryLine(more)
    requires Run(Initial, lines + more).Success?
    ensures ParsedLines(lines + more) == ParsedLines(lines)
  {
    RunAppend(Initial, lines, more);
    NoSummaryKeepsCollection(Run(Initial, lines).value, more);
  }

  /**
   * "Could not parse" has a cause: the input is neither stream nor text, or
   * one of its lines has a record type the parser does not know.
   */
  lemma CouldNotParseCause(input: Input)
    requires ParsedInput(input) == Failure(CouldNotParse)
    ensures input.Other? || exists i :: 0 <= i < |LinesOf(input)| && ParseLine(LinesOf(input)[i]).Failure?
  {
    if !input.Other? {
      UnknownRecordCause(Initial, LinesOf(input));
    }
  }

  /** The lines a stream or a text is read as. */
  function LinesOf(input: Input): seq<string>
  {
    match input
    case Stream(ls) => ls
    case Text(t) => SplitLines(t)
    case Other => []
  }

  lemma {:induction false} UnknownRecordCause(st: State, lines: seq<string>)
    requires Run(st, lines) == Failure(CouldNotParse)
    ensures exists i :: 0 <= i < |lines| && ParseLine(lines[i]).Failure?
  {
    var n := |lines|;
    var pre := lines[..n - 1];
    match Run(st, pre)
    case Failure(_) =>
      UnknownRecordCause(st, pre);
      var i :| 0 <= i < |pre| && ParseLine(pre[i]).Failure?;
      assert lines[i] == pre[i];
    case Success(s) =>
      StepCouldNotParse(s, lines[n - 1]);
  }

  /** Of the transitions, only a line of unknown record type fails with "could not parse". */
  lemma StepCouldNotParse(st: State, line: string)
    requires Step(st, line) == Failure(CouldNotParse)
    ensures ParseLine(line).Failure?
  {
  }

  // ------------------------------------------------------- stream and text

  /**
   * The lines `gets` yields when reading `text`: every piece before a LF
   * with its LF, then the rest, unless it is empty.
   */
  function GetsLines(text: string): (r: seq<string>)
  {
    var p := Pieces(text);
    WithFeeds(p[..|p| - 1]) + (if p[|p| - 1] == "" then [] else [p[|p| - 1]])
  }

  /** Each line followed by a LF. */
  function WithFeeds(ls: seq<string>): (r: seq<string>)
    ensures |r| == |ls| && forall i :: 0 <= i < |ls| ==> r[i] == ls[i] + "\n"
  {
    seq(|ls|, i requires 0 <= i < |ls| => ls[i] + "\n")
  }

  /** A line parses the same with a LF after it. */
  lemma StepIgnoresFeed(st: State, line: string)
    ensures Step(st, line + "\n") == Step(st, line)
  {
    BlankIgnoresFeed(line);
    ParseLineIgnoresFeed(line);
  }

  lemma BlankIgnoresFeed(line: string)
    ensures IsBlank(line + "\n") <==> IsBlank(line)
  {
    assert forall i :: 0 <= i < |line| ==> (line + "\n")[i] == line[i];
    assert IsStripped((line + "\n")[|line|]);
  }

  lemma ParseLineIgnoresFeed(line: string)
    ensures ParseLine(line + "\n") == ParseLine(line)
  {
    DeleteAppend(line, "\n", '\r');
    assert Delete("\n", '\r') == "\n";
    DeleteAppend(Delete(line, '\r'), "\n", '\n');
    assert Delete("\n", '\n') == "";
    assert Delete(line + "\n", '\r') == Delete(line, '\r') + "\n";
    assert RemoveLineBreaks(line + "\n") == RemoveLineBreaks(line);
  }

  lemma {:induction false} RunIgnoresFeeds(st: State, ls: seq<string>)
    ensures Run(st, WithFeeds(ls)) == Run(st, ls)
  {
    if |ls| > 0 {
      var n := |ls|;
      assert WithFeeds(ls)[..n - 1] == WithFeeds(ls[..n - 1]);
      RunIgnoresFeeds(st, ls[..n - 1]);
      match Run(st, ls[..n - 1])
      case Failure(e) =>
      case Success(s) => StepIgnoresFeed(s, ls[n - 1]);
    }
  }

  lemma {:induction false} RunIgnoresTrailingBlanks(st: State, a: seq<string>, b: seq<string>)
    requires forall i :: 0 <= i < |b| ==> IsBlank(b[i])
    ensures Run(st, a + b) == Run(st, a)
  {
    if |b| > 0 {
      var n := |b|;
      assert (a + b)[..|a + b| - 1] == a + b[..n - 1];
      RunIgnoresTrailingBlanks(st, a, b[..n - 1]);
    } else {
      assert a + b == a;
    }
  }

  /** Reading a text through a stream or splitting it on LF gives the same result. */
  lemma StreamTextAgree(text: string)
    ensures ParsedInput(Stream(GetsLines(text))) == ParsedInput(Text(text))
  {
    var gets, split := GetsLines(text), SplitLines(text);
    GetsAgree(text);
    assert ParsedInput(Stream(gets)) == ParsedLines(gets);
    assert ParsedInput(Text(text)) == ParsedLines(split);
  }

  lemma GetsAgree(text: string)
    ensures Run(Initial, GetsLines(text)) == Run(Initial, SplitLines(text))
  {
    var p := Pieces(text);
    if p[|p| - 1] == "" {
      EndsWithFeed(text);
    } else {
      EndsWithoutFeed(text);
    }
  }

  lemma EndsWithFeed(text: string)
    requires var p := Pieces(text); p[|p| - 1] == ""
    ensures Run(Initial, GetsLines(text)) == Run(Initial, SplitLines(text))
  {
    var p := Pieces(text);
    var k := |SplitLines(text)|;
    FedLines(text);
    EmptyLastPiece(p, k);
  }

  lemma FedLines(text: string)
    requires var p := Pieces(text); p[|p| - 1] == ""
    ensures var p := Pieces(text);
      && |SplitLines(text)| < |p|
      && SplitLines(text) == p[..|SplitLines(text)|]
      && GetsLines(text) == WithFeeds(p[..|p| - 1])
      && forall i :: |SplitLines(text)| <= i < |p| ==> p[i] == ""
  {
    var p := Pieces(text);
    assert GetsLines(text) == WithFeeds(p[..|p| - 1]) + [];
  }

  lemma EndsWithoutFeed(text: string)
    requires var p := Pieces(text); p[|p| - 1] != ""
    ensures Run(Initial, GetsLines(text)) == Run(Initial, SplitLines(text))
  {
    var p := Pieces(text);
    UnfedLines(text);
    FullLastPiece(p);
  }

  lemma UnfedLines(text: string)
    requires var p := Pieces(text); p[|p| - 1] != ""
    ensures var p := Pieces(text);
      && SplitLines(text) == p
      && GetsLines(text) == WithFeeds(p[..|p| - 1]) + [p[|p| - 1]]
  {
  }

  lemma EmptyLastPiece(p: seq<string>, k: nat)
    requires |p| > 0 && p[|p| - 1] == "" && k < |p|
    requires forall i :: k <= i < |p| ==> p[i] == ""
    ensures Run(Initial, WithFeeds(p[..|p| - 1])) == Run(Initial, p[..k])
  {
    var n := |p|;
    RunIgnoresFeeds(Initial, p[..n - 1]);
    var tail := p[k..n - 1];
    assert forall i :: 0 <= i < |tail| ==> tail[i] == p[k + i];
    assert p[..n - 1] == p[..k] + tail;
    RunIgnoresTrailingBlanks(Initial, p[..k], tail);
  }

  lemma FullLastPiece(p: seq<string>)
    requires |p| > 0
    ensures Run(Initial, WithFeeds(p[..|p| - 1]) + [p[|p| - 1]]) == Run(Initial, p)
  {
    var n := |p|;
    var w := WithFeeds(p[..n - 1]);
    RunIgnoresFeeds(Initial, p[..n - 1]);
    assert (w + [p[n - 1]])[..n - 1] == w;
    assert (w + [p[n - 1]])[n - 1] == p[n - 1];
  }



  // ------------------------------------------------------------ round trip

  /** Each record followed by the given terminator. */
  function Framed(ls: seq<string>, suffix: string): (r: seq<string>)
    ensures |r| == |ls| && forall i :: 0 <= i < |ls| ==> r[i] == ls[i] + suffix
  {
    seq(|ls|, i requires 0 <= i < |ls| => ls[i] + suffix)
  }

  /** Records each ended by CR LF are the records each ended by CR, joined by LF, with a final LF. */
  lemma {:induction false} TerminatedJoin(ls: seq<string>)
    ensures Terminated(ls) == Join(Framed(ls, "\r") + [""])
  {
    if |ls| > 0 {
      TerminatedJoin(ls[1..]);
      var f := Framed(ls, "\r") + [""];
      assert f[1..] == Framed(ls[1..], "\r") + [""];
      assert Join(f) == f[0] + "\n" + Join(f[1..]);
    }
  }

  /** No record holds a LF. */
  predicate NoFeeds(ls: seq<string>) {
    forall i :: 0 <= i < |ls| ==> '\n' !in ls[i]
  }

  /** The pieces of rendered records: each record with its CR, then an empty piece. */
  lemma PiecesTerminated(ls: seq<string>)
    requires NoFeeds(ls)
    ensures Pieces(Terminated(ls)) == Framed(ls, "\r") + [""]
  {
    var f := Framed(ls, "\r") + [""];
    forall i | 0 <= i < |f| ensures '\n' !in f[i] {
      if i < |ls| {
        assert f[i] == ls[i] + "\r";
      }
    }
    TerminatedJoin(ls);
    PiecesJoin(f);
  }

  /** Splitting rendered records on LF leaves each record with its CR. */
  lemma SplitTerminated(ls: seq<string>)
    requires NoFeeds(ls)
    ensures SplitLines(Terminated(ls)) == Framed(ls, "\r")
  {
    PiecesTerminated(ls);
    var f := Framed(ls, "\r");
    assert (f + [""])[..|f|] == f;
    assert |f| > 0 ==> f[|f| - 1] != "";
  }

  /** Reading rendered records with `gets` yields each record with its CR LF. */
  lemma GetsTerminated(ls: seq<string>)
    requires NoFeeds(ls)
    ensures GetsLines(Terminated(ls)) == Framed(ls, Crlf)
  {
    PiecesTerminated(ls);
    var p := Framed(ls, "\r") + [""];
    assert p[..|p| - 1] == Framed(ls, "\r");
    assert GetsLines(Terminated(ls)) == WithFeeds(Framed(ls, "\r")) + [];
    forall i | 0 <= i < |ls| ensures (ls[i] + "\r") + "\n" == ls[i] + Crlf { }
  }

  /** The transactions parsed back from their detail records. */
  function DecodedAll(ts: seq<Transaction>): (r: seq<Transaction>)
    ensures |r| == |ts|
    ensures forall i :: 0 <= i < |ts| ==> r[i] == DetailRecord.Decode(DetailRecord.Record(ts[i]))
  {
    seq(|ts|, i requires 0 <= i < |ts| => DetailRecord.Decode(DetailRecord.Record(ts[i])))
  }

  /** The batch parsed back from the records of a batch. */
  function Reparsed(b: BatchValue): BatchValue
  {
    BatchValue(BatchHeaders.Decode(BatchHeaders.Record(b.headers)), DecodedAll(b.transactions))
  }

  /** A batch whose records are single lines and whose fields and numbers fit their slots. */
  predicate RoundTrippable(b: BatchValue) {
    && BatchHeaders.NoBreaks(b.headers) && BatchHeaders.SlotsFit(b.headers)
    && (forall i :: 0 <= i < |b.transactions| ==>
          && DetailRecord.Fits(b.transactions[i]) && DetailRecord.NoBreaks(b.transactions[i])
          && DetailRecord.SlotsFit(b.transactions[i]))
    && TotalsFit(b)
  }

  /** A transaction read back from its detail record keeps its code and amount. */
  lemma CodeAndAmountKept(t: Transaction, d: Transaction)
    requires DetailRecord.Fits(t) && d == DetailRecord.Decode(DetailRecord.Record(t))
    ensures d.transactionCode == t.transactionCode && d.amount == t.amount
  {
    DetailRecord.DecodeRecord(t);
  }

  /** Transactions of the same code and amount count towards the same total. */
  lemma SameParts(t: Transaction, d: Transaction)
    requires d.transactionCode == t.transactionCode && d.amount == t.amount
    ensures CreditPart(d) == CreditPart(t) && DebitPart(d) == DebitPart(t)
  {
  }

  /** Transactions of the same codes and amounts, in the same order, have the same totals. */
  lemma {:induction false} SameSums(ts: seq<Transaction>, ds: seq<Transaction>)
    requires |ds| == |ts|
    requires forall i :: 0 <= i < |ts| ==>
               ds[i].transactionCode == ts[i].transactionCode && ds[i].amount == ts[i].amount
    ensures CreditSum(ds) == CreditSum(ts) && DebitSum(ds) == DebitSum(ts)
  {
    if |ts| > 0 {
      var n := |ts|;
      SameSums(ts[..n - 1], ds[..n - 1]);
      SameParts(ts[n - 1], ds[n - 1]);
    }
  }

  /** Reading back the detail records keeps every code and amount, so both totals. */
  lemma SumsOfDecoded(ts: seq<Transaction>)
    requires forall i :: 0 <= i < |ts| ==> DetailRecord.Fits(ts[i])
    ensures CreditSum(DecodedAll(ts)) == CreditSum(ts)
    ensures DebitSum(DecodedAll(ts)) == DebitSum(ts)
  {
    var ds := DecodedAll(ts);
    forall i | 0 <= i < |ts|
      ensures ds[i].transactionCode == ts[i].transactionCode && ds[i].amount == ts[i].amount
    {
      CodeAndAmountKept(ts[i], ds[i]);
    }
    SameSums(ts, ds);
  }

  /** `line` is a detail record that reads as `d`. */
  predicate ReadsAsDetail(line: string, d: Transaction) {
    !IsBlank(line) && ParseLine(line) == Success(DetailLine(d))
  }

  lemma StepDetail(st: State, line: string, d: Transaction)
    requires st.open.Some? && ReadsAsDetail(line, d)
    ensures Step(st, line) == Success(State(st.collection,
      Some(st.open.value.(transactions := st.open.value.transactions + [d]))))
  {
  }

  lemma RunThrough(st: State, lines: seq<string>, k: nat, mid: State, fin: State)
    requires 0 < k <= |lines|
    requires Run(st, lines[..k - 1]) == Success(mid)
    requires Step(mid, lines[k - 1]) == Success(fin)
    ensures Run(st, lines[..k]) == Success(fin)
  {
    assert lines[..k][..k - 1] == lines[..k - 1];
    assert lines[..k][k - 1] == lines[k - 1];
  }

  lemma AppendTaken<T>(a: seq<T>, b: seq<T>, k: nat)
    requires 0 < k <= |b|
    ensures a + b[..k] == (a + b[..k - 1]) + [b[k - 1]]
  {
    assert b[..k] == b[..k - 1] + [b[k - 1]];
  }

  /** Lines that each parse as a detail record, read into an open batch, add their transactions to it. */
  lemma RunAppendsDetails(c: seq<BatchValue>, b0: BatchValue, lines: seq<string>, ds: seq<Transaction>)
    requires |lines| == |ds|
    requires forall i :: 0 <= i < |lines| ==> ReadsAsDetail(lines[i], ds[i])
    ensures Run(State(c, Some(b0)), lines)
      == Success(State(c, Some(b0.(transactions := b0.transactions + ds))))
  {
    if |lines| == 0 {
      assert b0.transactions + ds == b0.transactions;
    } else {
      RunAppendsPrefix(c, b0, lines, ds, |lines|);
      assert lines[..|lines|] == lines && ds[..|ds|] == ds;
    }
  }

  lemma {:induction false} RunAppendsPrefix(c: seq<BatchValue>, b0: BatchValue,
                                            lines: seq<string>, ds: seq<Transaction>, k: nat)
    requires 0 < k <= |lines| == |ds|
    requires forall i :: 0 <= i < |lines| ==> ReadsAsDetail(lines[i], ds[i])
    ensures Run(State(c, Some(b0)), lines[..k])
      == Success(State(c, Some(b0.(transactions := b0.transactions + ds[..k]))))
  {
    if k == 1 {
      assert lines[..0] == [] && ds[..0] == [];
      assert b0.transactions + ds[..0] == b0.transactions;
    } else {
      RunAppendsPrefix(c, b0, lines, ds, k - 1);
    }
    RunAppendsOne(c, b0, lines, ds, k);
  }

  lemma RunAppendsOne(c: seq<BatchValue>, b0: BatchValue, lines: seq<string>, ds: seq<Transaction>, k: nat)
    requires 0 < k <= |lines| == |ds|
    requires Run(State(c, Some(b0)), lines[..k - 1])
      == Success(State(c, Some(b0.(transactions := b0.transactions + ds[..k - 1]))))
    requires ReadsAsDetail(lines[k - 1], ds[k - 1])
    ensures Run(State(c, Some(b0)), lines[..k])
      == Success(State(c, Some(b0.(transactions := b0.transactions + ds[..k]))))
  {
    var b1 := b0.(transactions := b0.transactions + ds[..k - 1]);
    var b2 := b1.(transactions := b1.transactions + [ds[k - 1]]);
    StepDetail(State(c, Some(b1)), lines[k - 1], ds[k - 1]);
    AppendTaken(b0.transactions, ds, k);
    RunThrough(State(c, Some(b0)), lines, k, State(c, Some(b1)), State(c, Some(b2)));
  }

  /** Reading back a batch keeps its net total. */
  lemma ReparsedNet(b: BatchValue)
    requires forall i :: 0 <= i < |b.transactions| ==> DetailRecord.Fits(b.transactions[i])
    ensures NetTotal(Reparsed(b)) == NetTotal(b)
  {
    SumsOfDecoded(b.transactions);
  }

  /** Reading back a batch keeps its totals and count, so its file total record. */
  lemma ReparsedFileTotal(b: BatchValue)
    requires forall i :: 0 <= i < |b.transactions| ==> DetailRecord.Fits(b.transactions[i])
    ensures FileTotalRecord(Reparsed(b)) == FileTotalRecord(b)
  {
    SumsOfDecoded(b.transactions);
    ReparsedNet(b);
  }

  /** The totals of a batch read back fit their slots when the batch's own do. */
  lemma ReparsedFits(b: BatchValue)
    requires forall i :: 0 <= i < |b.transactions| ==> DetailRecord.Fits(b.transactions[i])
    requires TotalsFit(b)
    ensures TotalsFit(Reparsed(b))
  {
    SumsOfDecoded(b.transactions);
    ReparsedNet(b);
  }

  lemma FramedConcat(a: seq<string>, b: seq<string>, suffix: string)
    ensures Framed(a + b, suffix) == Framed(a, suffix) + Framed(b, suffix)
  {
    assert forall i :: 0 <= i < |a + b| ==> Framed(a + b, suffix)[i] == (a + b)[i] + suffix;
  }

  lemma FramedThree(x: string, d: seq<string>, y: string, suffix: string)
    ensures Framed([x] + d + [y], suffix) == [x + suffix] + Framed(d, suffix) + [y + suffix]
  {
    FramedConcat([x] + d, [y], suffix);
    FramedConcat([x], d, suffix);
  }

  /** The lines of a batch, each with its terminator: descriptive, details, file total. */
  lemma FramedLines(b: BatchValue, suffix: string)
    ensures Framed(Lines(b), suffix)
      == [BatchHeaders.Record(b.headers) + suffix]
         + Framed(DetailLines(b.transactions), suffix)
         + [FileTotalRecord(b) + suffix]
  {
    FramedThree(BatchHeaders.Record(b.headers), DetailLines(b.transactions), FileTotalRecord(b), suffix);
  }

  lemma RunOne(st: State, line: string)
    ensures Run(st, [line]) == Step(st, line)
  {
    assert [line][..0] == [];
  }

  lemma StepSummary(st: State, line: string, s: FileTotal.Summary)
    requires st.open.Some? && !IsBlank(line) && ParseLine(line) == Success(SummaryLine(s))
    requires SummaryCompatibleWithBatch(s, st.open.value)
    ensures Step(st, line) == Success(State(st.collection + [st.open.value], None))
  {
  }

  /** The summary a batch's file total record reads as reconciles with the batch read back. */
  lemma ReparsedReconciles(b: BatchValue)
    requires forall i :: 0 <= i < |b.transactions| ==> DetailRecord.Fits(b.transactions[i])
    ensures SummaryCompatibleWithBatch(FileTotal.Summary(FileTotal.Bsb, Abs(NetTotal(b)),
      CreditSum(b.transactions), DebitSum(b.transactions), |b.transactions|), Reparsed(b))
  {
    SumsOfDecoded(b.transactions);
    ReparsedNet(b);
  }


  /** `line` is a descriptive record that reads as `h`. */
  predicate ReadsAsHeader(line: string, h: Headers) {
    !IsBlank(line) && ParseLine(line) == Success(HeaderLine(h))
  }

  /** `line` is a file total record that reads as `s`. */
  predicate ReadsAsSummary(line: string, s: FileTotal.Summary) {
    !IsBlank(line) && ParseLine(line) == Success(SummaryLine(s))
  }

  /** Kept apart so that the parse context of the callers stays small. */
  lemma ConcatAssoc<T>(a: seq<T>, b: seq<T>, c: seq<T>)
    ensures a + b + c == a + (b + c)
  {
  }

  lemma EmptyConcat<T>(a: seq<T>)
    ensures [] + a == a
  {
  }

  /** A descriptive line read from the start opens a batch of what it reads as. */
  lemma RunAfterHeader(hl: string, rest: seq<string>, h: Headers)
    requires ReadsAsHeader(hl, h)
    ensures Run(Initial, [hl] + rest) == Run(State([], Some(BatchValue(h, []))), rest)
  {
    RunAppend(Initial, [hl], rest);
    RunOne(Initial, hl);
  }

  /** A reconciling file total line closes the open batch. */
  lemma RunSummaryLine(c: seq<BatchValue>, b: BatchValue, sl: string, s: FileTotal.Summary)
    requires ReadsAsSummary(sl, s) && SummaryCompatibleWithBatch(s, b)
    ensures Run(State(c, Some(b)), [sl]) == Success(State(c + [b], None))
  {
    StepSummary(State(c, Some(b)), sl, s);
    RunOne(State(c, Some(b)), sl);
  }

  /** Detail lines and a reconciling file total line close the open batch with those details. */
  lemma RunDetailsThenSummary(h: Headers, dl: seq<string>, sl: string,
                              ds: seq<Transaction>, s: FileTotal.Summary)
    requires |dl| == |ds| && forall i :: 0 <= i < |dl| ==> ReadsAsDetail(dl[i], ds[i])
    requires ReadsAsSummary(sl, s) && SummaryCompatibleWithBatch(s, BatchValue(h, ds))
    ensures Run(State([], Some(BatchValue(h, []))), dl + [sl]) == Success(State([BatchValue(h, ds)], None))
  {
    RunAppend(State([], Some(BatchValue(h, []))), dl, [sl]);
    RunAppendsDetails([], BatchValue(h, []), dl, ds);
    EmptyConcat(ds);
    RunSummaryLine([], BatchValue(h, ds), sl, s);
    EmptyConcat([BatchValue(h, ds)]);
  }

  /**
   * A descriptive line, detail lines and a reconciling file total line
   * parse to exactly one batch of what they read as.
   */
  lemma RunBatchLines(hl: string, dl: seq<string>, sl: string,
                      h: Headers, ds: seq<Transaction>, s: FileTotal.Summary)
    requires ReadsAsHeader(hl, h)
    requires |dl| == |ds| && forall i :: 0 <= i < |dl| ==> ReadsAsDetail(dl[i], ds[i])
    requires ReadsAsSummary(sl, s) && SummaryCompatibleWithBatch(s, BatchValue(h, ds))
    ensures Run(Initial, [hl] + dl + [sl]) == Success(State([BatchValue(h, ds)], None))
  {
    ConcatAssoc([hl], dl, [sl]);
    RunAfterHeader(hl, dl + [sl], h);
    RunDetailsThenSummary(h, dl, sl, ds, s);
  }

  /** The detail records of `ts`, each with its terminator, read as the transactions read back. */
  lemma DetailRecordsRead(ts: seq<Transaction>, suffix: string)
    requires IsTerminator(suffix)
    requires forall i :: 0 <= i < |ts| ==>
               DetailRecord.Fits(ts[i]) && DetailRecord.NoBreaks(ts[i])
    ensures forall i :: 0 <= i < |ts| ==>
              ReadsAsDetail(Framed(DetailLines(ts), suffix)[i], DecodedAll(ts)[i])
  {
    var lines := Framed(DetailLines(ts), suffix);
    var ds := DecodedAll(ts);
    forall i | 0 <= i < |ts|
      ensures ReadsAsDetail(lines[i], ds[i])
    {
      ParseDetailRecord(ts[i], suffix);
    }
  }

  /** The file total record of a batch, with its terminator, reads as its totals and count. */
  lemma SummaryRecordRead(b: BatchValue, suffix: string)
    requires TotalsFit(b) && IsTerminator(suffix)
    ensures ReadsAsSummary(FileTotalRecord(b) + suffix, FileTotal.Summary(FileTotal.Bsb,
      Abs(NetTotal(b)), CreditSum(b.transactions), DebitSum(b.transactions), |b.transactions|))
  {
    ParseSummaryRecord(Abs(NetTotal(b)), CreditSum(b.transactions), DebitSum(b.transactions),
      |b.transactions|, suffix);
  }

  /** The descriptive record of a batch, with its terminator, reads as its headers read back. */
  lemma HeaderRecordRead(h: Headers, suffix: string)
    requires BatchHeaders.NoBreaks(h) && IsTerminator(suffix)
    ensures ReadsAsHeader(BatchHeaders.Record(h) + suffix, BatchHeaders.Decode(BatchHeaders.Record(h)))
  {
    ParseHeaderRecord(h, suffix);
  }

  /**
   * A batch's records, each ended by the same terminator, parse to exactly
   * one batch: the batch read back from them.
   */
  lemma RunRendered(b: BatchValue, suffix: string)
    requires RoundTrippable(b) && IsTerminator(suffix)
    ensures Run(Initial, Framed(Lines(b), suffix)) == Success(State([Reparsed(b)], None))
  {
    FramedLines(b, suffix);
    HeaderRecordRead(b.headers, suffix);
    DetailRecordsRead(b.transactions, suffix);
    SummaryRecordRead(b, suffix);
    ReparsedReconciles(b);
    RunBatchLines(BatchHeaders.Record(b.headers) + suffix, Framed(DetailLines(b.transactions), suffix),
      FileTotalRecord(b) + suffix, BatchHeaders.Decode(BatchHeaders.Record(b.headers)),
      DecodedAll(b.transactions), FileTotal.Summary(FileTotal.Bsb, Abs(NetTotal(b)),
      CreditSum(b.transactions), DebitSum(b.transactions), |b.transactions|));
  }

  // ------------------------------------------------------------ render again

  /** Transactions whose detail records agree render the same detail lines. */
  lemma SameDetailLines(xs: seq<Transaction>, ys: seq<Transaction>)
    requires |xs| == |ys|
    requires forall i :: 0 <= i < |xs| ==> DetailRecord.Record(xs[i]) == DetailRecord.Record(ys[i])
    ensures DetailLines(xs) == DetailLines(ys)
  {
  }

  /** The transactions read back render the detail records they were read from. */
  lemma DecodedDetailLines(ts: seq<Transaction>)
    requires forall i :: 0 <= i < |ts| ==> DetailRecord.Fits(ts[i])
    ensures DetailLines(DecodedAll(ts)) == DetailLines(ts)
  {
    var ds := DecodedAll(ts);
    forall i | 0 <= i < |ts|
      ensures DetailRecord.Record(ts[i]) == DetailRecord.Record(ds[i])
    {
      DetailRecord.DecodeRecord(ts[i]);
    }
    SameDetailLines(ts, ds);
  }

  /** Batches whose three kinds of records agree have the same lines. */
  lemma SameLines(a: BatchValue, b: BatchValue)
    requires BatchHeaders.Record(a.headers) == BatchHeaders.Record(b.headers)
    requires DetailLines(a.transactions) == DetailLines(b.transactions)
    requires FileTotalRecord(a) == FileTotalRecord(b)
    ensures Lines(a) == Lines(b)
  {
  }

  /** The batch read back from a batch's records has the same records. */
  lemma ReparsedLines(b: BatchValue)
    requires forall i :: 0 <= i < |b.transactions| ==> DetailRecord.Fits(b.transactions[i])
    ensures Lines(Reparsed(b)) == Lines(b)
  {
    BatchHeaders.DecodeRecord(b.headers);
    DecodedDetailLines(b.transactions);
    ReparsedFileTotal(b);
    SameLines(Reparsed(b), b);
  }

  /** A batch that renders, read back from its records, renders the same text. */
  lemma RenderReparsed(b: BatchValue)
    requires Render(b).Success? && RoundTrippable(b)
    ensures Render(Reparsed(b)) == Render(b)
  {
    BatchHeaders.DecodeKeepsValid(b.headers);
    ReparsedLines(b);
  }

  // ------------------------------------------------------------ parse rendered text

  lemma NoFeedsThree(x: string, d: seq<string>, y: string)
    requires HasNoBreak(x) && HasNoBreak(y)
    requires forall i :: 0 <= i < |d| ==> HasNoBreak(d[i])
    ensures NoFeeds([x] + d + [y])
  {
    var ls := [x] + d + [y];
    forall i | 0 <= i < |ls| ensures '\n' !in ls[i] {
      assert HasNoBreak(ls[i]) by {
        if 0 < i < |ls| - 1 {
          assert ls[i] == d[i - 1];
        }
      }
    }
  }

  /** No record of a round-trippable batch holds a line break. */
  lemma LinesNoFeeds(b: BatchValue)
    requires RoundTrippable(b)
    ensures NoFeeds(Lines(b))
  {
    var ts := b.transactions;
    BatchHeaders.RecordNoBreak(b.headers);
    FileTotal.RecordNoBreak(Abs(NetTotal(b)), CreditSum(ts), DebitSum(ts), |ts|);
    var d := DetailLines(ts);
    forall i | 0 <= i < |d| ensures HasNoBreak(d[i]) {
      DetailRecord.RecordNoBreak(ts[i]);
    }
    NoFeedsThree(BatchHeaders.Record(b.headers), d, FileTotalRecord(b));
  }

  lemma ParsedTextOne(text: string, v: BatchValue)
    requires Run(Initial, SplitLines(text)) == Success(State([v], None))
    ensures ParsedInput(Text(text)) == Success([v])
  {
  }

  lemma ParsedStreamOne(lines: seq<string>, v: BatchValue)
    requires Run(Initial, lines) == Success(State([v], None))
    ensures ParsedInput(Stream(lines)) == Success([v])
  {
  }

  /** The text a batch renders parses to exactly one batch: the batch read back from its records. */
  lemma ParseRenderedText(b: BatchValue)
    requires Render(b).Success? && RoundTrippable(b)
    ensures ParsedInput(Text(Render(b).value)) == Success([Reparsed(b)])
  {
    LinesNoFeeds(b);
    SplitTerminated(Lines(b));
    RunRendered(b, "\r");
    ParsedTextOne(Terminated(Lines(b)), Reparsed(b));
  }

  /** Read by `gets`, the text a batch renders parses to the same single batch. */
  lemma ParseRenderedStream(b: BatchValue)
    requires Render(b).Success? && RoundTrippable(b)
    ensures ParsedInput(Stream(GetsLines(Render(b).value))) == Success([Reparsed(b)])
  {
    LinesNoFeeds(b);
    GetsTerminated(Lines(b));
    RunRendered(b, Crlf);
    ParsedStreamOne(GetsLines(Terminated(Lines(b))), Reparsed(b));
  }

  // ------------------------------------------------------------ misuse

  /** A second descriptive line before the first batch is closed is refused. */
  lemma TwoHeadersRefused(hl: string, h: Headers, hl': string, h': Headers)
    requires ReadsAsHeader(hl, h) && ReadsAsHeader(hl', h')
    ensures ParsedLines([hl, hl']) == Failure(PreviousBatchUnfinished)
  {
    var afterFirst := State([], Some(BatchValue(h, [])));
    StepHeader(Initial, hl, h);
    StepHeader(afterFirst, hl', h');
    RunTwo(Initial, hl, hl');
  }

  lemma StepHeader(st: State, line: string, h: Headers)
    requires ReadsAsHeader(line, h)
    ensures Step(st, line) == HandleBatch(st, h)
  {
  }

  lemma RunTwo(st: State, a: string, b: string)
    ensures Run(st, [a, b]) == match Step(st, a)
      case Failure(e) => Failure(e)
      case Success(s) => Step(s, b)
  {
    assert [a, b][..1] == [a];
    RunOne(st, a);
  }

  /** A detail line with no batch open is refused. */
  lemma LoneDetailRefused(dl: string, d: Transaction)
    requires ReadsAsDetail(dl, d)
    ensures ParsedLines([dl]) == Failure(TransactionOutsideBatch)
  {
    RunOne(Initial, dl);
  }

  /** A file total line with no batch open is refused. */
  lemma LoneSummaryRefused(sl: string, s: FileTotal.Summary)
    requires ReadsAsSummary(sl, s)
    ensures ParsedLines([sl]) == Failure(SummaryWithoutBatch)
  {
    RunOne(Initial, sl);
  }

  /** A file total line that does not reconcile with the open batch is refused. */
  lemma RunSummaryLineRefused(c: seq<BatchValue>, b: BatchValue, sl: string, s: FileTotal.Summary)
    requires ReadsAsSummary(sl, s) && !SummaryCompatibleWithBatch(s, b)
    ensures Run(State(c, Some(b)), [sl]) == Failure(SummaryMismatch)
  {
    RunOne(State(c, Some(b)), sl);
  }

  /**
   * A descriptive line, detail lines and a file total line that does not
   * reconcile with them are refused with the mismatch error.
   */
  lemma UnreconciledRefused(hl: string, dl: seq<string>, sl: string,
                            h: Headers, ds: seq<Transaction>, s: FileTotal.Summary)
    requires ReadsAsHeader(hl, h)
    requires |dl| == |ds| && forall i :: 0 <= i < |dl| ==> ReadsAsDetail(dl[i], ds[i])
    requires ReadsAsSummary(sl, s) && !SummaryCompatibleWithBatch(s, BatchValue(h, ds))
    ensures ParsedLines([hl] + dl + [sl]) == Failure(SummaryMismatch)
  {
    ConcatAssoc([hl], dl, [sl]);
    RunAfterHeader(hl, dl + [sl], h);
    RunAppend(State([], Some(BatchValue(h, []))), dl, [sl]);
    RunAppendsDetails([], BatchValue(h, []), dl, ds);
    EmptyConcat(ds);
    RunSummaryLineRefused([], BatchValue(h, ds), sl, s);
  }

  /** Text of LF-separated lines, none empty at the end, splits back into those lines. */
  lemma SplitJoin(ls: seq<string>)
    requires |ls| >= 1 && ls[|ls| - 1] != ""
    requires forall i :: 0 <= i < |ls| ==> '\n' !in ls[i]
    ensures SplitLines(Join(ls)) == ls
  {
    PiecesJoin(ls);
  }
}
