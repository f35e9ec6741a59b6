/**
 * The parser (`Aba::Parser`): a state machine over the lines of an ABA file.
 * Each non-blank line, with its CR and LF characters removed, is classified
 * by its record type and drives one transition: a descriptive record opens a
 * batch, a detail record is added to the open batch, and a file total record
 * closes the open batch provided it reconciles with the batch's totals.
 */
module Parser {
  import opened Wrappers
  import opened AbaErrors
  import opened Fields
  import BatchHeaders
  import DetailRecord
  import FileTotal
  import opened Batches

  /** What `parse` is given: lines read with `gets` until it yields nil, a block of text, or anything else. */
  datatype Input = Stream(lines: seq<string>) | Text(text: string) | Other

  /** What `parse_line` yields: a batch of the decoded headers, a transaction, or the file total mapping. */
  datatype Parsed =
    | HeaderLine(headers: Headers)
    | DetailLine(transaction: Transaction)
    | SummaryLine(summary: FileTotal.Summary)

  /** The closed batches so far, in order, and the open batch, if any. */
  datatype State = State(collection: seq<BatchValue>, open: Option<BatchValue>)

  const Initial: State := State([], None)

  // ------------------------------------------------------------ one line

  /** `line.gsub("\r", "").gsub("\n", "")`. */
  function RemoveLineBreaks(line: string): (r: string)
    ensures HasNoBreak(r)
    ensures forall i :: 0 <= i < |r| ==> r[i] in line
    ensures HasNoBreak(line) ==> r == line
  {
    Delete(Delete(line, '\r'), '\n')
  }

  /** `contains_valid_record_type?`: the line starts with the record type. */
  predicate HasRecordType(line: string, recordType: char) {
    |line| > 0 && line[0] == recordType
  }

  /**
   * `parse_line`: the line without its line breaks is decoded by the codec
   * its record type names; a line of any other record type cannot be parsed.
   */
  function ParseLine(line: string): (r: Result<Parsed, ParseError>)
    ensures var l := RemoveLineBreaks(line);
      && (r.Success? && r.value.HeaderLine? <==> HasRecordType(l, BatchHeaders.RecordType))
      && (r.Success? && r.value.DetailLine? <==> HasRecordType(l, DetailRecord.RecordType))
      && (r.Success? && r.value.SummaryLine? <==> HasRecordType(l, FileTotal.RecordType))
      && (r.Failure? ==> r.error == CouldNotParse)
  {
    var l := RemoveLineBreaks(line);
    if HasRecordType(l, BatchHeaders.RecordType) then Success(HeaderLine(BatchHeaders.Decode(l)))
    else if HasRecordType(l, DetailRecord.RecordType) then Success(DetailLine(DetailRecord.Decode(l)))
    else if HasRecordType(l, FileTotal.RecordType) then Success(SummaryLine(FileTotal.Decode(l)))
    else Failure(CouldNotParse)
  }

  // ---------------------------------------------------------- reconciliation

  predicate IsNetTotalAmountCorrect(s: FileTotal.Summary, b: BatchValue) {
    s.netTotalAmount == Abs(NetTotal(b))
  }

  predicate IsCreditTotalAmountCorrect(s: FileTotal.Summary, b: BatchValue) {
    s.creditTotalAmount == Abs(CreditSum(b.transactions))
  }

  predicate IsDebitTotalAmountCorrect(s: FileTotal.Summary, b: BatchValue) {
    s.debitTotalAmount == Abs(DebitSum(b.transactions))
  }

  predicate IsCountOfTransactionsCorrect(s: FileTotal.Summary, b: BatchValue) {
    s.count == |b.transactions|
  }

  /** `summary_compatible_with_batch?`: all four checks hold. */
  predicate SummaryCompatibleWithBatch(s: FileTotal.Summary, b: BatchValue) {
    && IsNetTotalAmountCorrect(s, b)
    && IsCreditTotalAmountCorrect(s, b)
    && IsDebitTotalAmountCorrect(s, b)
    && IsCountOfTransactionsCorrect(s, b)
  }

  // ------------------------------------------------------------ transitions

  /** `handle_batch`: a descriptive record opens a batch, unless one is open. */
  function HandleBatch(st: State, h: Headers): (r: Result<State, ParseError>)
    ensures r.Failure? <==> st.open.Some?
    ensures r.Failure? ==> r.error == PreviousBatchUnfinished
    ensures r.Success? ==> r.value.collection == st.collection
    ensures r.Success? ==> r.value.open == Some(BatchValue(h, []))
  {
    if st.open.None? then Success(State(st.collection, Some(BatchValue(h, []))))
    else Failure(PreviousBatchUnfinished)
  }

  /** `handle_transaction`: a detail record is added to the open batch. */
  function HandleTransaction(st: State, t: Transaction): (r: Result<State, ParseError>)
    ensures r.Failure? <==> st.open.None?
    ensures r.Failure? ==> r.error == TransactionOutsideBatch
    ensures r.Success? ==> r.value.collection == st.collection && r.value.open.Some?
    ensures r.Success? ==> r.value.open.value.headers == st.open.value.headers
    ensures r.Success? ==> r.value.open.value.transactions == st.open.value.transactions + [t]
  {
    match st.open
    case None => Failure(TransactionOutsideBatch)
    case Some(b) => Success(State(st.collection, Some(b.(transactions := b.transactions + [t]))))
  }

  /** `handle_summary`: a reconciling file total record closes the open batch. */
  function HandleSummary(st: State, s: FileTotal.Summary): (r: Result<State, ParseError>)
    ensures r == Failure(SummaryWithoutBatch) <==> st.open.None?
    ensures r == Failure(SummaryMismatch) <==>
              st.open.Some? && !SummaryCompatibleWithBatch(s, st.open.value)
    ensures r.Success? <==> st.open.Some? && SummaryCompatibleWithBatch(s, st.open.value)
    ensures r.Success? ==> r.value == State(st.collection + [st.open.value], None)
  {
    match st.open
    case None => Failure(SummaryWithoutBatch)
    case Some(b) =>
      if SummaryCompatibleWithBatch(s, b) then Success(State(st.collection + [b], None))
      else Failure(SummaryMismatch)
  }

  /** `collect_results`: the transition the kind of the parsed line selects. */
  function CollectResults(st: State, p: Parsed): Result<State, ParseError>
  {
    match p
    case HeaderLine(h) => HandleBatch(st, h)
    case DetailLine(t) => HandleTransaction(st, t)
    case SummaryLine(s) => HandleSummary(st, s)
  }

  /** `handle_line`: parse, then make the transition. */
  function HandleLine(st: State, line: string): Result<State, ParseError>
  {
    match ParseLine(line)
    case Failure(e) => Failure(e)
    case Success(p) => CollectResults(st, p)
  }

  /** One line of input: blank lines leave the state as it is. */
  function Step(st: State, line: string): Result<State, ParseError>
  {
    if IsBlank(line) then Success(st) else HandleLine(st, line)
  }

  /** The lines consumed in order from a state; the first error ends the run. */
  function Run(st: State, lines: seq<string>): Result<State, ParseError>
  {
    if |lines| == 0 then Success(st)
    else
      match Run(st, lines[..|lines| - 1])
      case Failure(e) => Failure(e)
      case Success(s) => Step(s, lines[|lines| - 1])
  }

  /** The batches a sequence of lines yields: those closed by the end of input. */
  function ParsedLines(lines: seq<string>): Result<seq<BatchValue>, ParseError>
  {
    match Run(Initial, lines)
    case Failure(e) => Failure(e)
    case Success(st) => Success(st.collection)
  }

  /** `parse`: a stream is read line by line, a text split on LF, anything else refused. */
  function ParsedInput(input: Input): (r: Result<seq<BatchValue>, ParseError>)
    ensures input.Other? ==> r == Failure(CouldNotParse)
  {
    match input
    case Stream(lines) => ParsedLines(lines)
    case Text(text) => ParsedLines(SplitLines(text))
    case Other => Failure(CouldNotParse)
  }

  // ------------------------------------------------------ over batch objects

  /** The values of the batches of a collection, in order. */
  function Values(cs: seq<Batch>): (r: seq<BatchValue>)
    reads cs
    ensures |r| == |cs|
    ensures forall i :: 0 <= i < |cs| ==> r[i] == cs[i].Value()
  {
    if |cs| == 0 then [] else Values(cs[..|cs| - 1]) + [cs[|cs| - 1].Value()]
  }

  function OpenValue(b: Batch?): Option<BatchValue>
    reads b
  {
    if b == null then None else Some(b.Value())
  }

  /** The open batch keeps its totals and is not among the closed ones. */
  ghost predicate Inv(cs: seq<Batch>, b: Batch?)
    reads b
  {
    b != null ==> b.Valid() && b !in cs
  }

  /** `handle_batch` on the objects: a new batch of the headers, unless one is open. */
  method HandleBatchOn(cs: seq<Batch>, b: Batch?, h: Headers)
      returns (r: Result<(seq<Batch>, Batch?), ParseError>)
    requires Inv(cs, b)
    ensures match HandleBatch(State(Values(cs), OpenValue(b)), h)
      case Failure(e) => r == Failure(e)
      case Success(st) =>
        && r.Success? && r.value.0 == cs && r.value.1 != null && fresh(r.value.1)
        && Inv(r.value.0, r.value.1) && OpenValue(r.value.1) == st.open
  {
    if b != null {
      return Failure(PreviousBatchUnfinished);
    }
    var started := new Batch(h);
    return Success((cs, started));
  }

  /** `handle_transaction` on the objects: the transaction is added to the open batch in place. */
  method HandleTransactionOn(cs: seq<Batch>, b: Batch?, t: Transaction)
      returns (r: Result<(seq<Batch>, Batch?), ParseError>)
    requires Inv(cs, b)
    modifies b
    ensures match HandleTransaction(State(old(Values(cs)), old(OpenValue(b))), t)
      case Failure(e) => r == Failure(e)
      case Success(st) =>
        && r == Success((cs, b)) && Inv(cs, b)
        && Values(cs) == st.collection && OpenValue(b) == st.open
  {
    if b == null {
      return Failure(TransactionOutsideBatch);
    }
    var _ := b.AddTransaction(Instance(t));
    return Success((cs, b));
  }

  /**
   * `handle_summary` on the objects: the summary is checked against the
   * running totals of the open batch, which is then pushed onto the collection.
   */
  method HandleSummaryOn(cs: seq<Batch>, b: Batch?, s: FileTotal.Summary)
      returns (r: Result<(seq<Batch>, Batch?), ParseError>)
    requires Inv(cs, b)
    ensures match HandleSummary(State(Values(cs), OpenValue(b)), s)
      case Failure(e) => r == Failure(e)
      case Success(st) =>
        && r == Success((cs + [b], null))
        && Values(cs + [b]) == st.collection && st.open.None?
  {
    if b == null {
      return Failure(SummaryWithoutBatch);
    }
    var compatible :=
      && s.netTotalAmount == Abs(b.NetTotalAmount())
      && s.creditTotalAmount == Abs(b.creditTotalAmount)
      && s.debitTotalAmount == Abs(b.debitTotalAmount)
      && s.count == b.Count();
    if !compatible {
      return Failure(SummaryMismatch);
    }
    assert (cs + [b])[..|cs|] == cs;
    return Success((cs + [b], null));
  }

  /** `handle_line` on the objects: parse, then the transition on the collection and the open batch. */
  method HandleLineOn(cs: seq<Batch>, b: Batch?, line: string)
      returns (r: Result<(seq<Batch>, Batch?), ParseError>)
    requires Inv(cs, b)
    modifies b
    ensures match HandleLine(State(old(Values(cs)), old(OpenValue(b))), line)
      case Failure(e) => r == Failure(e)
      case Success(st) =>
        && r.Success? && Inv(r.value.0, r.value.1)
        && (r.value.1 != null ==> r.value.1 == b || fresh(r.value.1))
        && Values(r.value.0) == st.collection && OpenValue(r.value.1) == st.open
  {
    var p := ParseLine(line);
    ghost var st := State(Values(cs), OpenValue(b));
    if p.Failure? {
      return Failure(p.error);
    }
    assert HandleLine(st, line) == CollectResults(st, p.value);
    match p.value
    case HeaderLine(h) =>
      r := HandleBatchOn(cs, b, h);
    case DetailLine(t) =>
      r := HandleTransactionOn(cs, b, t);
    case SummaryLine(s) =>
      r := HandleSummaryOn(cs, b, s);
  }

  /** One turn of either parsing loop: a blank line is skipped, any other is handled. */
  method StepOn(cs: seq<Batch>, b: Batch?, line: string)
      returns (r: Result<(seq<Batch>, Batch?), ParseError>)
    requires Inv(cs, b)
    modifies b
    ensures match Step(State(old(Values(cs)), old(OpenValue(b))), line)
      case Failure(e) => r == Failure(e)
      case Success(st) =>
        && r.Success? && Inv(r.value.0, r.value.1)
        && (r.value.1 != null ==> r.value.1 == b || fresh(r.value.1))
        && Values(r.value.0) == st.collection && OpenValue(r.value.1) == st.open
  {
    if IsBlank(line) {
      return Success((cs, b));
    }
    r := HandleLineOn(cs, b, line);
  }

  /** `parse_stream`: read lines until the stream is finished; the batches it closed. */
  method ParseStream(lines: seq<string>) returns (r: Result<seq<Batch>, ParseError>)
    ensures match ParsedLines(lines)
      case Failure(e) => r == Failure(e)
      case Success(c) => r.Success? && Values(r.value) == c
  {
    var collection: seq<Batch> := [];
    var batch: Batch? := null;
    var i := 0;
    while i < |lines|
      invariant 0 <= i <= |lines|
      invariant Inv(collection, batch) && (batch != null ==> fresh(batch))
      invariant Run(Initial, lines[..i]) == Success(State(Values(collection), OpenValue(batch)))
    {
      var line := lines[i];
      assert lines[..i + 1][..i] == lines[..i];
      var handled := StepOn(collection, batch, line);
      if handled.Failure? {
        RunFailurePersists(lines, i + 1);
        return Failure(handled.error);
      }
      collection, batch := handled.value.0, handled.value.1;
      i := i + 1;
    }
    assert lines[..i] == lines;
    return Success(collection);
  }

  /** `parse_text`: split the text on LF, then each line in turn; the batches it closed. */
  method ParseText(text: string) returns (r: Result<seq<Batch>, ParseError>)
    ensures match ParsedLines(SplitLines(text))
      case Failure(e) => r == Failure(e)
      case Success(c) => r.Success? && Values(r.value) == c
  {
    var lines := SplitLines(text);
    r := HandleLines(lines);
  }

  /** The `each` loop of `parse_text` over the lines the split gave. */
  method HandleLines(lines: seq<string>) returns (r: Result<seq<Batch>, ParseError>)
    ensures match ParsedLines(lines)
      case Failure(e) => r == Failure(e)
      case Success(c) => r.Success? && Values(r.value) == c
  {
    var collection: seq<Batch> := [];
    var batch: Batch? := null;
    for i := 0 to |lines|
      invariant Inv(collection, batch) && (batch != null ==> fresh(batch))
      invariant Run(Initial, lines[..i]) == Success(State(Values(collection), OpenValue(batch)))
    {
      assert lines[..i + 1][..i] == lines[..i];
      var handled := StepOn(collection, batch, lines[i]);
      if handled.Failure? {
        RunFailurePersists(lines, i + 1);
        return Failure(handled.error);
      }
      collection, batch := handled.value.0, handled.value.1;
    }
    assert lines[..|lines|] == lines;
    return Success(collection);
  }

  /** `parse`: dispatch on the kind of input. */
  method Parse(input: Input) returns (r: Result<seq<Batch>, ParseError>)
    ensures match ParsedInput(input)
      case Failure(e) => r == Failure(e)
      case Success(c) => r.Success? && Values(r.value) == c
  {
    match input
    case Stream(lines) => r := ParseStream(lines);
    case Text(text) => r := ParseText(text);
    case Other => r := Failure(CouldNotParse);
  }

  // ---------------------------------------------------------------- runs

  /** Running two sequences of lines is running the first, then the second. */
  lemma {:induction false} RunAppend(st: State, a: seq<string>, b: seq<string>)
    ensures Run(st, a + b) == match Run(st, a)
      case Failure(e) => Failure(e)
      case Success(s) => Run(s, b)
  {
    if |b| == 0 {
      assert a + b == a;
    } else {
      RunAppend(st, a, b[..|b| - 1]);
      assert (a + b)[..|a + b| - 1] == a + b[..|b| - 1];
    }
  }

  /** An error on a prefix is the error of the whole run. */
  lemma RunFailurePersists(lines: seq<string>, i: nat)
    requires i <= |lines| && Run(Initial, lines[..i]).Failure?
    ensures Run(Initial, lines) == Run(Initial, lines[..i])
  {
    RunAppend(Initial, lines[..i], lines[i..]);
    assert lines[..i] + lines[i..] == lines;
  }
}
