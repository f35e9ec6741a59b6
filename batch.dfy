/**
 * A batch (`Aba::Batch`): one descriptive record, an append-only list of
 * transactions and the running credit and debit totals kept beside it, and
 * the text the batch renders (descriptive record, detail records, file total
 * record, each ended by CR LF).
 */
module Batches {
  import opened Wrappers
  import opened AbaErrors
  import opened Fields
  import BatchHeaders
  import DetailRecord
  import FileTotal

  type Headers = BatchHeaders.Headers
  type Transaction = DetailRecord.Transaction

  /** The value of a batch: its headers and its transactions in insertion order. */
  datatype BatchValue = BatchValue(headers: Headers, transactions: seq<Transaction>)

  // ------------------------------------------------------------------ totals

  /** The amount a transaction adds to the credit total. */
  function CreditPart(t: Transaction): nat
  {
    if DetailRecord.IsCredit(t) then t.amount else 0
  }

  /** The amount a transaction adds to the debit total. */
  function DebitPart(t: Transaction): nat
  {
    if DetailRecord.IsDebit(t) then t.amount else 0
  }

  /** The sum of the amounts of the credit transactions. */
  function CreditSum(ts: seq<Transaction>): nat
  {
    if |ts| == 0 then 0 else CreditSum(ts[..|ts| - 1]) + CreditPart(ts[|ts| - 1])
  }

  /** The sum of the amounts of the debit transactions. */
  function DebitSum(ts: seq<Transaction>): nat
  {
    if |ts| == 0 then 0 else DebitSum(ts[..|ts| - 1]) + DebitPart(ts[|ts| - 1])
  }

  /** Appending a transaction adds its part to each total and nothing else. */
  lemma SumsAppend(ts: seq<Transaction>, t: Transaction)
    ensures CreditSum(ts + [t]) == CreditSum(ts) + CreditPart(t)
    ensures DebitSum(ts + [t]) == DebitSum(ts) + DebitPart(t)
  {
    assert (ts + [t])[..|ts|] == ts;
  }

  /** The totals of a concatenation are the sums of the totals of its parts. */
  lemma {:induction false} SumsConcat(a: seq<Transaction>, b: seq<Transaction>)
    ensures CreditSum(a + b) == CreditSum(a) + CreditSum(b)
    ensures DebitSum(a + b) == DebitSum(a) + DebitSum(b)
  {
    if |b| == 0 {
      assert a + b == a;
    } else {
      var b' := b[..|b| - 1];
      SumsConcat(a, b');
      assert (a + b)[..|a + b| - 1] == a + b';
    }
  }

  function Abs(x: int): nat { if x < 0 then -x else x }

  /** `net_total_amount`: credits less debits; negative when debits outweigh credits. */
  function NetTotal(b: BatchValue): int
  {
    CreditSum(b.transactions) - DebitSum(b.transactions)
  }

  // --------------------------------------------------------------- rendering

  /** The record terminator of the wire format. */
  const Crlf: string := "\r\n"

  /**
   * The file total record of a batch: the absolute net total, the credit
   * and debit totals and the count of transactions.
   */
  function FileTotalRecord(b: BatchValue): string
  {
    FileTotal.Record(Abs(NetTotal(b)), CreditSum(b.transactions), DebitSum(b.transactions),
      |b.transactions|)
  }

  /** The file total record of a batch reads back as its totals and count. */
  lemma FileTotalDecodes(b: BatchValue)
    requires FileTotal.Fits(Abs(NetTotal(b)), CreditSum(b.transactions), DebitSum(b.transactions),
      |b.transactions|)
    ensures FileTotal.Decode(FileTotalRecord(b)) == FileTotal.Summary(FileTotal.Bsb,
      Abs(NetTotal(b)), CreditSum(b.transactions), DebitSum(b.transactions), |b.transactions|)
  {
    FileTotal.DecodeRecord(Abs(NetTotal(b)), CreditSum(b.transactions), DebitSum(b.transactions),
      |b.transactions|);
  }

  /** The detail records of the transactions, in insertion order. */
  function DetailLines(ts: seq<Transaction>): (r: seq<string>)
    ensures |r| == |ts|
    ensures forall i :: 0 <= i < |ts| ==> r[i] == DetailRecord.Record(ts[i])
  {
    if |ts| == 0 then [] else [DetailRecord.Record(ts[0])] + DetailLines(ts[1..])
  }

  /** The records of a batch, in the order they are written. */
  function Lines(b: BatchValue): (r: seq<string>)
    ensures |r| == |b.transactions| + 2
    ensures r[0] == BatchHeaders.Record(b.headers)
    ensures forall i :: 0 <= i < |b.transactions| ==>
              r[i + 1] == DetailRecord.Record(b.transactions[i])
    ensures r[|r| - 1] == FileTotalRecord(b)
  {
    [BatchHeaders.Record(b.headers)] + DetailLines(b.transactions) + [FileTotalRecord(b)]
  }

  /** Records written one after another, each ended by CR LF. */
  function Terminated(ls: seq<string>): string
  {
    if |ls| == 0 then "" else ls[0] + Crlf + Terminated(ls[1..])
  }

  /**
   * `to_s`: an empty batch fails with "no transactions"; otherwise the
   * descriptive record is validated and every record is written, CR LF after each.
   */
  function Render(b: BatchValue): (r: Result<string, RenderError>)
    ensures r == Failure(NoTransactions) <==> |b.transactions| == 0
    ensures r == Failure(Invalid) <==>
              |b.transactions| > 0 && !BatchHeaders.Valid(b.headers)
    ensures r.Success? <==> |b.transactions| > 0 && BatchHeaders.Valid(b.headers)
    ensures r.Success? ==> r.value == Terminated(Lines(b))
  {
    if |b.transactions| == 0 then Failure(NoTransactions)
    else
      match BatchHeaders.ToS(b.headers)
      case Failure(e) => Failure(e)
      case Success(h) => Success(Terminated([h] + DetailLines(b.transactions) + [FileTotalRecord(b)]))
  }

  // ------------------------------------------------------------ the batch object

  /** The argument of `add_transaction`: a transaction, or the field mapping to build one from. */
  datatype TransactionArg =
    | Instance(transaction: Transaction)
    | Mapping(attributes: DetailRecord.Attributes)

  /** The transaction `add_transaction` appends for an argument. */
  function TransactionOf(arg: TransactionArg): (t: Transaction)
    ensures arg.Instance? ==> t == arg.transaction
    ensures arg.Mapping? ==> t == DetailRecord.New(arg.attributes)
  {
    match arg
    case Instance(t) => t
    case Mapping(a) => DetailRecord.New(a)
  }

  /** True exactly when every transaction is valid. */
  function AllValid(ts: seq<Transaction>): (r: bool)
    ensures r <==> forall i :: 0 <= i < |ts| ==> DetailRecord.Valid(ts[i])
  {
    if |ts| == 0 then true else DetailRecord.Valid(ts[0]) && AllValid(ts[1..])
  }

  class Batch {
    var headers: Headers
    var transactions: seq<Transaction>
    var creditTotalAmount: nat
    var debitTotalAmount: nat

    /** The running totals are the sums over the current transactions. */
    ghost predicate Valid()
      reads this
    {
      && creditTotalAmount == CreditSum(transactions)
      && debitTotalAmount == DebitSum(transactions)
    }

    function Value(): BatchValue
      reads this
    {
      BatchValue(headers, transactions)
    }

    /** A new batch: the given headers, no transactions, both totals zero. */
    constructor (headers: Headers)
      ensures Valid()
      ensures this.headers == headers && transactions == []
      ensures creditTotalAmount == 0 && debitTotalAmount == 0
    {
      this.headers := headers;
      transactions := [];
      creditTotalAmount := 0;
      debitTotalAmount := 0;
    }

    /** `Batch.new(attributes)`: the headers are built from the attributes and kept. */
    constructor FromAttributes(attributes: BatchHeaders.Attributes)
      ensures Valid()
      ensures headers == BatchHeaders.New(attributes) && transactions == []
      ensures creditTotalAmount == 0 && debitTotalAmount == 0
    {
      headers := BatchHeaders.New(attributes);
      transactions := [];
      creditTotalAmount := 0;
      debitTotalAmount := 0;
    }

    /**
     * `add_transaction`: appends the transaction (built from the mapping when
     * given one), raises the total its code classifies it under by its
     * amount, and returns what it appended.
     */
    method AddTransaction(arg: TransactionArg) returns (added: Transaction)
      requires Valid()
      modifies this
      ensures Valid()
      ensures added == TransactionOf(arg)
      ensures headers == old(headers)
      ensures transactions == old(transactions) + [added]
      ensures creditTotalAmount == old(creditTotalAmount) + CreditPart(added)
      ensures debitTotalAmount == old(debitTotalAmount) + DebitPart(added)
    {
      added := TransactionOf(arg);
      SumsAppend(transactions, added);
      transactions := transactions + [added];
      if DetailRecord.IsCredit(added) {
        creditTotalAmount := creditTotalAmount + added.amount;
      }
      if DetailRecord.IsDebit(added) {
        debitTotalAmount := debitTotalAmount + added.amount;
      }
    }

    /** `count`: the number of stored transactions. */
    function Count(): (n: nat)
      reads this
      ensures n == |Value().transactions|
    {
      |transactions|
    }

    /** `net_total_amount`, from the running totals: never drifts from the transactions. */
    function NetTotalAmount(): (n: int)
      reads this
      requires Valid()
      ensures n == NetTotal(Value())
    {
      creditTotalAmount - debitTotalAmount
    }

    /** `transactions_valid?`: true exactly when every transaction is valid. */
    function TransactionsValid(): (r: bool)
      reads this
      ensures r <==> forall i :: 0 <= i < |transactions| ==> DetailRecord.Valid(transactions[i])
    {
      AllValid(transactions)
    }

    /**
     * `to_s`, with the file total record computed from the running totals:
     * the same text as the rendering of the batch's value.
     */
    function ToS(): (r: Result<string, RenderError>)
      reads this
      requires Valid()
      ensures r == Render(Value())
    {
      if |transactions| == 0 then Failure(NoTransactions)
      else
        match BatchHeaders.ToS(headers)
        case Failure(e) => Failure(e)
        case Success(h) =>
          var total := FileTotal.Record(Abs(creditTotalAmount - debitTotalAmount),
            creditTotalAmount, debitTotalAmount, |transactions|);
          Success(Terminated([h] + DetailLines(transactions) + [total]))
    }
  }

  // ------------------------------------------------------- the batch tests' batch

  /** The descriptive record attributes of the batch tests. */
  function ScenarioAttributes(): BatchHeaders.Attributes
  {
    BatchHeaders.Attributes(None, Some("WPC"), Some("John Doe"),
      Some("466364"), Some("Payroll"), Some("190615"))
  }

  function ScenarioHeaders(): Headers
  {
    BatchHeaders.New(ScenarioAttributes())
  }

  /** Credits of 40 and 30, then debits of 20 and 10, all on the cloned test transaction. */
  function Scenario(): BatchValue
  {
    BatchValue(ScenarioHeaders(), [DetailRecord.Example(50, 40), DetailRecord.Example(50, 30),
      DetailRecord.Example(13, 20), DetailRecord.Example(13, 10)])
  }

  /** Building the scenario through `add_transaction` gives the scenario batch. */
  method BuildScenario() returns (b: Batch)
    ensures fresh(b) && b.Valid() && b.Value() == Scenario()
  {
    b := new Batch.FromAttributes(ScenarioAttributes());
    var _ := b.AddTransaction(Instance(DetailRecord.Example(50, 40)));
    var _ := b.AddTransaction(Instance(DetailRecord.Example(50, 30)));
    var _ := b.AddTransaction(Instance(DetailRecord.Example(13, 20)));
    var _ := b.AddTransaction(Instance(DetailRecord.Example(13, 10)));
  }

  /** Credit total 70, debit total 30, net total 40, count 4. */
  lemma ScenarioTotals()
    ensures CreditSum(Scenario().transactions) == 70
    ensures DebitSum(Scenario().transactions) == 30
    ensures NetTotal(Scenario()) == 40
    ensures |Scenario().transactions| == 4
  {
    var ts := Scenario().transactions;
    assert ts[..3] == ts[..4][..3] && ts[..3][..2] == ts[..2] && ts[..2][..1] == ts[..1];
    assert CreditSum(ts[..1]) == 40 && DebitSum(ts[..1]) == 0;
    assert CreditSum(ts[..2]) == 70 && DebitSum(ts[..2]) == 0;
    assert CreditSum(ts[..3]) == 70 && DebitSum(ts[..3]) == 20;
    assert ts[..4] == ts;
  }

  /** The two credit detail records of the scenario, in insertion order. */
  lemma ScenarioCreditRecords()
    ensures Lines(Scenario())[1] == "1" + "342-342" + "  3244654" + " " + ("50" + "0000000040")
      + ("John Doe                        " + "R435564           ")
      + ("453-543" + " 45656733" + "Remitter        " + "00000000")
    ensures Lines(Scenario())[2] == "1" + "342-342" + "  3244654" + " " + ("50" + "0000000030")
      + ("John Doe                        " + "R435564           ")
      + ("453-543" + " 45656733" + "Remitter        " + "00000000")
  {
    var ts := Scenario().transactions;
    assert Lines(Scenario())[1] == DetailRecord.Record(ts[0]);
    assert Lines(Scenario())[2] == DetailRecord.Record(ts[1]);
    DetailRecord.ExampleNumbers();
    DetailRecord.ExampleAmounts();
    DetailRecord.ExampleRecord(50, 40);
    DetailRecord.ExampleRecord(50, 30);
  }

  /** The two debit detail records of the scenario, after the credits. */
  lemma ScenarioDebitRecords()
    ensures Lines(Scenario())[3] == "1" + "342-342" + "  3244654" + " " + ("13" + "0000000020")
      + ("John Doe                        " + "R435564           ")
      + ("453-543" + " 45656733" + "Remitter        " + "00000000")
    ensures Lines(Scenario())[4] == "1" + "342-342" + "  3244654" + " " + ("13" + "0000000010")
      + ("John Doe                        " + "R435564           ")
      + ("453-543" + " 45656733" + "Remitter        " + "00000000")
  {
    var ts := Scenario().transactions;
    assert Lines(Scenario())[3] == DetailRecord.Record(ts[2]);
    assert Lines(Scenario())[4] == DetailRecord.Record(ts[3]);
    DetailRecord.ExampleNumbers();
    DetailRecord.ExampleAmounts();
    DetailRecord.ExampleRecord(13, 20);
    DetailRecord.ExampleRecord(13, 10);
  }

  lemma ScenarioSlots()
    ensures ZeroPad(40, 10) == "0000000040"
    ensures ZeroPad(70, 10) == "0000000070"
    ensures ZeroPad(30, 10) == "0000000030"
    ensures ZeroPad(4, 6) == "000004"
  {
  }

  lemma Blanks()
    ensures Spaces(12) == "            "
    ensures Spaces(24) == "                        "
    ensures Spaces(40) == "                                        "
  {
    FileTotal.ExampleBlanks();
    FileTotal.ExampleFiller();
  }

  /** The scenario's file total record: net 40, credit 70, debit 30, count 4. */
  lemma ScenarioFileTotal()
    ensures FileTotalRecord(Scenario())
      == ("7" + "999-999" + "            ")
         + ("0000000040" + "0000000070" + "0000000030")
         + ("                        " + "000004" + "                                        ")
  {
    ScenarioTotals();
    ScenarioSlots();
    Blanks();
  }

  /**
   * The file total record as the batch tests expect it: the net total
   * slot carries the credit total plus the debit total.
   */
  function FileTotalRecordAsWritten(b: BatchValue): string
  {
    FileTotal.Record(CreditSum(b.transactions) + DebitSum(b.transactions),
      CreditSum(b.transactions), DebitSum(b.transactions), |b.transactions|)
  }

  lemma AsWrittenSlot()
    ensures ZeroPad(100, 10) == "0000000100"
  {
    assert DecimalDigits(1) == "1";
    assert DecimalDigits(10) == "10";
    assert DecimalDigits(100) == "100";
  }

  /** On the scenario the expected record carries 0000000100 in the net slot. */
  lemma ScenarioFileTotalAsWritten()
    ensures FileTotalRecordAsWritten(Scenario())
      == ("7" + "999-999" + "            ")
         + ("0000000100" + "0000000070" + "0000000030")
         + ("                        " + "000004" + "                                        ")
  {
    ScenarioTotals();
    ScenarioSlots();
    AsWrittenSlot();
    Blanks();
  }

  /**
   * The expected record and the corrected one agree exactly when the batch
   * has no credits or no debits: as soon as both are present, the sum in
   * the net slot is not the net total.
   */
  lemma AsWrittenAgreement(b: BatchValue)
    requires CreditSum(b.transactions) + DebitSum(b.transactions) < Pow10(10)
    requires |b.transactions| < Pow10(6)
    ensures FileTotalRecordAsWritten(b) == FileTotalRecord(b) <==>
              CreditSum(b.transactions) == 0 || DebitSum(b.transactions) == 0
  {
    var c, d, n := CreditSum(b.transactions), DebitSum(b.transactions), |b.transactions|;
    var expected := FileTotal.Record(c + d, c, d, n);
    var corrected := FileTotal.Record(Abs(c as int - d), c, d, n);
    assert FileTotalRecordAsWritten(b) == expected;
    assert FileTotalRecord(b) == corrected;
    NetSlotAgreement(c, d, n);
  }

  lemma NetSlotAgreement(c: nat, d: nat, n: nat)
    requires c + d < Pow10(10) && n < Pow10(6)
    ensures (FileTotal.Record(c + d, c, d, n) == FileTotal.Record(Abs(c as int - d), c, d, n))
              <==> (c == 0 || d == 0)
  {
    if c == 0 || d == 0 {
      NetSlotAgrees(c, d, n);
    } else {
      NetSlotDiffers(c, d, n);
    }
  }

  /** Without credits or without debits, the sum is the net total. */
  lemma NetSlotAgrees(c: nat, d: nat, n: nat)
    requires c == 0 || d == 0
    ensures FileTotal.Record(c + d, c, d, n) == FileTotal.Record(Abs(c as int - d), c, d, n)
  {
    assert c + d == Abs(c as int - d);
  }

  /** With credits and debits both present, the sum in the net slot changes the record. */
  lemma NetSlotDiffers(c: nat, d: nat, n: nat)
    requires c + d < Pow10(10) && n < Pow10(6)
    requires c > 0 && d > 0
    ensures FileTotal.Record(c + d, c, d, n) != FileTotal.Record(Abs(c as int - d), c, d, n)
  {
    var r1 := FileTotal.Record(c + d, c, d, n);
    var r2 := FileTotal.Record(Abs(c as int - d), c, d, n);
    if r1 == r2 {
      FileTotal.RecordInjective(c + d, c, d, n, Abs(c as int - d), c, d, n);
    }
  }

  /** The scenario has credits and debits, so the expected record is not the corrected one. */
  lemma ScenarioAsWrittenDiffers()
    ensures FileTotalRecordAsWritten(Scenario()) != FileTotalRecord(Scenario())
  {
    ScenarioTotals();
    AsWrittenAgreement(Scenario());
  }

  /** The expected file total record reads back with the sum of the totals as its net total. */
  lemma AsWrittenDecodes(b: BatchValue)
    requires CreditSum(b.transactions) + DebitSum(b.transactions) < Pow10(10)
    requires |b.transactions| < Pow10(6)
    ensures FileTotal.Decode(FileTotalRecordAsWritten(b)) == FileTotal.Summary(FileTotal.Bsb,
      CreditSum(b.transactions) + DebitSum(b.transactions), CreditSum(b.transactions),
      DebitSum(b.transactions), |b.transactions|)
  {
    var c, d, n := CreditSum(b.transactions), DebitSum(b.transactions), |b.transactions|;
    var r := FileTotal.Record(c + d, c, d, n);
    assert FileTotalRecordAsWritten(b) == r;
    FileTotal.DecodeRecord(c + d, c, d, n);
  }
}
