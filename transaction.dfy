/**
 * The detail record (`Aba::Transaction`): one payment instruction, its
 * credit/debit classification, the 120-character record it renders and the
 * decoder the parser applies to a line of record type `1`.
 */
module DetailRecord {
  import opened Wrappers
  import opened Fields

  const RecordType: char := '1'

  /** The transaction codes that classify an instruction as a credit. */
  const CreditCodes: set<nat> := {50}

  /** The transaction codes that classify an instruction as a debit. */
  const DebitCodes: set<nat> := {13}

  /** One payment instruction; `witholdingAmount` keeps the source's spelling. */
  datatype Transaction = Transaction(
    bsb: string,
    accountNumber: string,
    indicator: string,
    transactionCode: nat,
    amount: nat,
    accountName: string,
    lodgementReference: string,
    traceBsb: string,
    traceAccountNumber: string,
    nameOfRemitter: string,
    witholdingAmount: nat)

  predicate IsCredit(t: Transaction) { t.transactionCode in CreditCodes }

  predicate IsDebit(t: Transaction) { t.transactionCode in DebitCodes }

  /** An account number: up to nine digits. */
  predicate IsAccountNumber(s: string) { |s| <= 9 && AllDigits(s) }

  /**
   * The field constraints of a detail record: BSBs of the pattern, account
   * numbers of up to nine digits, a one-character indicator, a known
   * transaction code and text fields within their slots.
   */
  predicate Valid(t: Transaction) {
    && IsBsb(t.bsb)
    && IsAccountNumber(t.accountNumber)
    && |t.indicator| == 1
    && t.transactionCode in CreditCodes + DebitCodes
    && |t.accountName| <= 32
    && |t.lodgementReference| <= 18
    && IsBsb(t.traceBsb)
    && IsAccountNumber(t.traceAccountNumber)
    && |t.nameOfRemitter| <= 16
  }

  /** Every amount fits its zero-padded slot (two, ten and eight digits). */
  predicate Fits(t: Transaction) {
    t.transactionCode < Pow10(2) && t.amount < Pow10(10) && t.witholdingAmount < Pow10(8)
  }

  /**
   * Every text field fits its slot. Ruby's `ljust` and `rjust` pad but never
   * cut; the layout here cuts a longer field to its slot, so it agrees with
   * the source only on transactions whose fields fit.
   */
  predicate SlotsFit(t: Transaction) {
    && |t.bsb| <= 7 && |t.accountNumber| <= 9 && |t.indicator| <= 1
    && |t.accountName| <= 32 && |t.lodgementReference| <= 18
    && |t.traceBsb| <= 7 && |t.traceAccountNumber| <= 9 && |t.nameOfRemitter| <= 16
  }

  /** The field constraints of a valid transaction keep every field within its slot. */
  lemma ValidSlotsFit(t: Transaction)
    requires Valid(t)
    ensures SlotsFit(t)
  {
  }

  /** A valid transaction is exactly one of credit and debit. */
  lemma ClassificationExclusive(t: Transaction)
    requires Valid(t)
    ensures IsCredit(t) <==> !IsDebit(t)
  {
  }

  // ---------------------------------------------------------- construction

  /** The field mapping `Aba::Transaction.new` takes: absent keys keep their defaults. */
  datatype Attributes = Attributes(
    bsb: Option<string>,
    accountNumber: Option<string>,
    indicator: Option<string>,
    transactionCode: Option<nat>,
    amount: Option<nat>,
    accountName: Option<string>,
    lodgementReference: Option<string>,
    traceBsb: Option<string>,
    traceAccountNumber: Option<string>,
    nameOfRemitter: Option<string>,
    witholdingAmount: Option<nat>)

  function Get<T>(o: Option<T>, default: T): (r: T)
    ensures o.Some? ==> r == o.value
    ensures o.None? ==> r == default
  {
    if o.Some? then o.value else default
  }

  /** The default indicator: a blank. */
  const DefaultIndicator: string := " "

  /** A transaction built from a field mapping; text defaults to empty, numbers to zero. */
  function New(a: Attributes): (t: Transaction)
    ensures a.bsb.Some? ==> t.bsb == a.bsb.value
    ensures a.amount.Some? ==> t.amount == a.amount.value
    ensures a.amount.None? ==> t.amount == 0
    ensures a.transactionCode.None? ==> t.transactionCode == 0 && !IsCredit(t) && !IsDebit(t)
    ensures a.transactionCode.Some? ==> t.transactionCode == a.transactionCode.value
    ensures a.indicator.None? ==> t.indicator == DefaultIndicator
    ensures a.indicator.Some? ==> t.indicator == a.indicator.value
    ensures a.accountNumber.Some? ==> t.accountNumber == a.accountNumber.value
    ensures a.accountName.Some? ==> t.accountName == a.accountName.value
    ensures a.lodgementReference.Some? ==> t.lodgementReference == a.lodgementReference.value
    ensures a.traceBsb.Some? ==> t.traceBsb == a.traceBsb.value
    ensures a.traceAccountNumber.Some? ==> t.traceAccountNumber == a.traceAccountNumber.value
    ensures a.nameOfRemitter.Some? ==> t.nameOfRemitter == a.nameOfRemitter.value
    ensures a.witholdingAmount.Some? ==> t.witholdingAmount == a.witholdingAmount.value
    ensures a.witholdingAmount.None? ==> t.witholdingAmount == 0
  {
    Transaction(
      Get(a.bsb, ""), Get(a.accountNumber, ""), Get(a.indicator, DefaultIndicator),
      Get(a.transactionCode, 0), Get(a.amount, 0), Get(a.accountName, ""),
      Get(a.lodgementReference, ""), Get(a.traceBsb, ""), Get(a.traceAccountNumber, ""),
      Get(a.nameOfRemitter, ""), Get(a.witholdingAmount, 0))
  }

  // --------------------------------------------------------------- the record

  /** The detail record, laid out column by column in four groups. */
  function Record(t: Transaction): string
  {
    Routing(t) + Amounts(t) + Names(t) + Trace(t)
  }

  /** Columns 1-18: record type, BSB, account number and indicator. */
  function Routing(t: Transaction): string
  {
    [RecordType] + LeftJustify(t.bsb, 7) + RightJustify(t.accountNumber, 9)
      + LeftJustify(t.indicator, 1)
  }

  /** Columns 19-30: transaction code and amount. */
  function Amounts(t: Transaction): string
  {
    ZeroPad(t.transactionCode, 2) + ZeroPad(t.amount, 10)
  }

  /** Columns 31-80: account name and lodgement reference. */
  function Names(t: Transaction): string
  {
    LeftJustify(t.accountName, 32) + LeftJustify(t.lodgementReference, 18)
  }

  /** Columns 81-120: trace BSB, trace account number, remitter and withholding amount. */
  function Trace(t: Transaction): string
  {
    LeftJustify(t.traceBsb, 7) + RightJustify(t.traceAccountNumber, 9)
      + LeftJustify(t.nameOfRemitter, 16) + ZeroPad(t.witholdingAmount, 8)
  }

  /** No text field holds a carriage return or a line feed. */
  predicate NoBreaks(t: Transaction) {
    && HasNoBreak(t.bsb) && HasNoBreak(t.accountNumber) && HasNoBreak(t.indicator)
    && HasNoBreak(t.accountName) && HasNoBreak(t.lodgementReference)
    && HasNoBreak(t.traceBsb) && HasNoBreak(t.traceAccountNumber) && HasNoBreak(t.nameOfRemitter)
  }

  /** A detail record of such fields is one line, starting with its record type. */
  lemma RecordNoBreak(t: Transaction)
    requires Fits(t) && NoBreaks(t)
    ensures HasNoBreak(Record(t)) && |Record(t)| == 120 && Record(t)[0] == RecordType
  {
    RecordLength(t);
    LeftJustifyNoBreak(t.bsb, 7);
    RightJustifyNoBreak(t.accountNumber, 9);
    LeftJustifyNoBreak(t.indicator, 1);
    ZeroPadNoBreak(t.transactionCode, 2);
    ZeroPadNoBreak(t.amount, 10);
    LeftJustifyNoBreak(t.accountName, 32);
    LeftJustifyNoBreak(t.lodgementReference, 18);
    LeftJustifyNoBreak(t.traceBsb, 7);
    RightJustifyNoBreak(t.traceAccountNumber, 9);
    LeftJustifyNoBreak(t.nameOfRemitter, 16);
    ZeroPadNoBreak(t.witholdingAmount, 8);
  }

  /** The widths of the zero-padded slots, when every amount fits. */
  lemma NumberWidths(t: Transaction)
    requires Fits(t)
    ensures |ZeroPad(t.transactionCode, 2)| == 2
    ensures |ZeroPad(t.amount, 10)| == 10
    ensures |ZeroPad(t.witholdingAmount, 8)| == 8
  {
    ZeroPadWidth(t.transactionCode, 2);
    ZeroPadWidth(t.amount, 10);
    ZeroPadWidth(t.witholdingAmount, 8);
  }

  /** `to_s` gives exactly 120 characters when every amount fits its slot. */
  lemma RecordLength(t: Transaction)
    requires Fits(t)
    ensures |Record(t)| == 120
    ensures Record(t)[0] == RecordType
  {
    NumberWidths(t);
  }

  /** Where the four groups stand in the record. */
  lemma RecordGroups(t: Transaction)
    requires Fits(t)
    ensures |Record(t)| == 120
    ensures Record(t)[0..18] == Routing(t)
    ensures Record(t)[18..30] == Amounts(t)
    ensures Record(t)[30..80] == Names(t)
    ensures Record(t)[80..120] == Trace(t)
  {
    NumberWidths(t);
  }

  lemma RoutingColumns(t: Transaction)
    ensures Routing(t)[1..8] == LeftJustify(t.bsb, 7)
    ensures Routing(t)[8..17] == RightJustify(t.accountNumber, 9)
    ensures Routing(t)[17..18] == LeftJustify(t.indicator, 1)
  {
  }

  lemma AmountsColumns(t: Transaction)
    requires Fits(t)
    ensures Amounts(t)[0..2] == ZeroPad(t.transactionCode, 2)
    ensures Amounts(t)[2..12] == ZeroPad(t.amount, 10)
  {
    NumberWidths(t);
  }

  lemma NamesColumns(t: Transaction)
    ensures Names(t)[0..32] == LeftJustify(t.accountName, 32)
    ensures Names(t)[32..50] == LeftJustify(t.lodgementReference, 18)
  {
  }

  lemma TraceColumns(t: Transaction)
    requires Fits(t)
    ensures Trace(t)[0..7] == LeftJustify(t.traceBsb, 7)
    ensures Trace(t)[7..16] == RightJustify(t.traceAccountNumber, 9)
    ensures Trace(t)[16..32] == LeftJustify(t.nameOfRemitter, 16)
    ensures Trace(t)[32..40] == ZeroPad(t.witholdingAmount, 8)
  {
    NumberWidths(t);
  }

  lemma RoutingInRecord(t: Transaction)
    requires Fits(t)
    ensures |Record(t)| == 120
    ensures Record(t)[0] == RecordType
    ensures Record(t)[1..8] == LeftJustify(t.bsb, 7)
    ensures Record(t)[8..17] == RightJustify(t.accountNumber, 9)
    ensures Record(t)[17..18] == LeftJustify(t.indicator, 1)
  {
    var r := Record(t);
    RecordLength(t);
    RecordGroups(t);
    RoutingColumns(t);
    assert r[1..8] == r[0..18][1..8];
    assert r[8..17] == r[0..18][8..17];
    assert r[17..18] == r[0..18][17..18];
  }

  lemma AmountsInRecord(t: Transaction)
    requires Fits(t)
    ensures |Record(t)| == 120
    ensures Record(t)[18..20] == ZeroPad(t.transactionCode, 2)
    ensures Record(t)[20..30] == ZeroPad(t.amount, 10)
  {
    var r := Record(t);
    RecordGroups(t);
    AmountsColumns(t);
    assert r[18..20] == r[18..30][0..2];
    assert r[20..30] == r[18..30][2..12];
  }

  lemma NamesInRecord(t: Transaction)
    requires Fits(t)
    ensures |Record(t)| == 120
    ensures Record(t)[30..62] == LeftJustify(t.accountName, 32)
    ensures Record(t)[62..80] == LeftJustify(t.lodgementReference, 18)
  {
    var r := Record(t);
    RecordGroups(t);
    NamesColumns(t);
    assert r[30..62] == r[30..80][0..32];
    assert r[62..80] == r[30..80][32..50];
  }

  lemma TraceInRecord(t: Transaction)
    requires Fits(t)
    ensures |Record(t)| == 120
    ensures Record(t)[80..87] == LeftJustify(t.traceBsb, 7)
    ensures Record(t)[87..96] == RightJustify(t.traceAccountNumber, 9)
  {
    var r := Record(t);
    RecordGroups(t);
    TraceColumns(t);
    assert r[80..87] == r[80..120][0..7];
    assert r[87..96] == r[80..120][7..16];
  }

  lemma RemitterInRecord(t: Transaction)
    requires Fits(t)
    ensures |Record(t)| == 120
    ensures Record(t)[96..112] == LeftJustify(t.nameOfRemitter, 16)
    ensures Record(t)[112..120] == ZeroPad(t.witholdingAmount, 8)
  {
    var r := Record(t);
    RecordGroups(t);
    TraceColumns(t);
    assert r[96..112] == r[80..120][16..32];
    assert r[112..120] == r[80..120][32..40];
  }

  /**
   * The column layout of the detail record (1-based columns in the comments),
   * when every amount fits its slot.
   */
  lemma RecordColumns(t: Transaction)
    requires Fits(t)
    ensures |Record(t)| == 120
    ensures Record(t)[0] == RecordType                                    // col 1
    ensures Record(t)[1..8] == LeftJustify(t.bsb, 7)                      // cols 2-8
    ensures Record(t)[8..17] == RightJustify(t.accountNumber, 9)          // cols 9-17
    ensures Record(t)[17..18] == LeftJustify(t.indicator, 1)              // col 18
    ensures Record(t)[18..20] == ZeroPad(t.transactionCode, 2)            // cols 19-20
    ensures Record(t)[20..30] == ZeroPad(t.amount, 10)                    // cols 21-30
    ensures Record(t)[30..62] == LeftJustify(t.accountName, 32)           // cols 31-62
    ensures Record(t)[62..80] == LeftJustify(t.lodgementReference, 18)    // cols 63-80
    ensures Record(t)[80..87] == LeftJustify(t.traceBsb, 7)               // cols 81-87
    ensures Record(t)[87..96] == RightJustify(t.traceAccountNumber, 9)    // cols 88-96
    ensures Record(t)[96..112] == LeftJustify(t.nameOfRemitter, 16)       // cols 97-112
    ensures Record(t)[112..120] == ZeroPad(t.witholdingAmount, 8)         // cols 113-120
  {
    RoutingInRecord(t);
    AmountsInRecord(t);
    NamesInRecord(t);
    TraceInRecord(t);
    RemitterInRecord(t);
  }

  // ---------------------------------------------------------------- decoding

  /**
   * The decoder for a line of record type `1`: text slots with their pad
   * stripped on the padded side, the indicator verbatim, numbers read back.
   */
  function Decode(line: string): Transaction
  {
    Transaction(
      RStrip(Slice(line, 1, 8)),
      LStrip(Slice(line, 8, 17)),
      Slice(line, 17, 18),
      ReadNumber(Slice(line, 18, 20)),
      ReadNumber(Slice(line, 20, 30)),
      RStrip(Slice(line, 30, 62)),
      RStrip(Slice(line, 62, 80)),
      RStrip(Slice(line, 80, 87)),
      LStrip(Slice(line, 87, 96)),
      RStrip(Slice(line, 96, 112)),
      ReadNumber(Slice(line, 112, 120)))
  }

  // What the decoder reads from the slots of any 120-character line.

  lemma ReadRouting(line: string, bsb: string, account: string, indicator: string)
    requires |line| == 120
    requires line[1..8] == bsb && line[8..17] == account && line[17..18] == indicator
    ensures Decode(line).bsb == RStrip(bsb)
    ensures Decode(line).accountNumber == LStrip(account)
    ensures Decode(line).indicator == indicator
  {
  }

  lemma ReadCode(line: string, code: nat)
    requires |line| == 120 && line[18..20] == ZeroPad(code, 2)
    ensures Decode(line).transactionCode == code
  {
    var slot := Slice(line, 18, 20);
    assert slot == ZeroPad(code, 2);
    ReadZeroPad(code, 2);
    assert ReadNumber(slot) == code;
  }

  lemma ReadAmount(line: string, amount: nat)
    requires |line| == 120 && line[20..30] == ZeroPad(amount, 10)
    ensures Decode(line).amount == amount
  {
    var slot := Slice(line, 20, 30);
    assert slot == ZeroPad(amount, 10);
    ReadZeroPad(amount, 10);
    assert ReadNumber(slot) == amount;
  }

  lemma ReadNames(line: string, name: string, reference: string)
    requires |line| == 120 && line[30..62] == name && line[62..80] == reference
    ensures Decode(line).accountName == RStrip(name)
    ensures Decode(line).lodgementReference == RStrip(reference)
  {
  }

  lemma ReadTrace(line: string, bsb: string, account: string)
    requires |line| == 120 && line[80..87] == bsb && line[87..96] == account
    ensures Decode(line).traceBsb == RStrip(bsb)
    ensures Decode(line).traceAccountNumber == LStrip(account)
  {
  }

  lemma ReadRemitter(line: string, remitter: string, witholding: nat)
    requires |line| == 120 && line[96..112] == remitter && line[112..120] == ZeroPad(witholding, 8)
    ensures Decode(line).nameOfRemitter == RStrip(remitter)
    ensures Decode(line).witholdingAmount == witholding
  {
    var slot := Slice(line, 112, 120);
    assert slot == ZeroPad(witholding, 8);
    ReadZeroPad(witholding, 8);
    assert ReadNumber(slot) == witholding;
  }

  /** What the decoder reads from the routing slots of a rendered detail record. */
  lemma DecodeRoutingSlots(t: Transaction)
    requires Fits(t)
    ensures var d := Decode(Record(t));
      && d.bsb == RStrip(LeftJustify(t.bsb, 7))
      && d.accountNumber == LStrip(RightJustify(t.accountNumber, 9))
      && d.indicator == LeftJustify(t.indicator, 1)
  {
    RoutingInRecord(t);
    ReadRouting(Record(t), LeftJustify(t.bsb, 7), RightJustify(t.accountNumber, 9),
      LeftJustify(t.indicator, 1));
  }

  /** What the decoder reads from the amount slots of a rendered detail record. */
  lemma DecodeAmountSlots(t: Transaction)
    requires Fits(t)
    ensures var d := Decode(Record(t));
      && d.transactionCode == t.transactionCode
      && d.amount == t.amount
  {
    AmountsInRecord(t);
    ReadCode(Record(t), t.transactionCode);
    ReadAmount(Record(t), t.amount);
  }

  /** What the decoder reads from the name slots of a rendered detail record. */
  lemma DecodeNameSlots(t: Transaction)
    requires Fits(t)
    ensures var d := Decode(Record(t));
      && d.accountName == RStrip(LeftJustify(t.accountName, 32))
      && d.lodgementReference == RStrip(LeftJustify(t.lodgementReference, 18))
  {
    NamesInRecord(t);
    ReadNames(Record(t), LeftJustify(t.accountName, 32), LeftJustify(t.lodgementReference, 18));
  }

  /** What the decoder reads from the trace slots of a rendered detail record. */
  lemma DecodeTraceSlots(t: Transaction)
    requires Fits(t)
    ensures var d := Decode(Record(t));
      && d.traceBsb == RStrip(LeftJustify(t.traceBsb, 7))
      && d.traceAccountNumber == LStrip(RightJustify(t.traceAccountNumber, 9))
  {
    TraceInRecord(t);
    ReadTrace(Record(t), LeftJustify(t.traceBsb, 7), RightJustify(t.traceAccountNumber, 9));
  }

  /** What the decoder reads from the remitter and withholding slots of a rendered detail record. */
  lemma DecodeRemitterSlots(t: Transaction)
    requires Fits(t)
    ensures var d := Decode(Record(t));
      && d.nameOfRemitter == RStrip(LeftJustify(t.nameOfRemitter, 16))
      && d.witholdingAmount == t.witholdingAmount
  {
    RemitterInRecord(t);
    ReadRemitter(Record(t), LeftJustify(t.nameOfRemitter, 16), t.witholdingAmount);
  }

  /** What the decoder reads from each slot of a rendered detail record. */
  lemma DecodeSlots(t: Transaction)
    requires Fits(t)
    ensures var d := Decode(Record(t));
      && d.bsb == RStrip(LeftJustify(t.bsb, 7))
      && d.accountNumber == LStrip(RightJustify(t.accountNumber, 9))
      && d.indicator == LeftJustify(t.indicator, 1)
      && d.transactionCode == t.transactionCode
      && d.amount == t.amount
      && d.accountName == RStrip(LeftJustify(t.accountName, 32))
      && d.lodgementReference == RStrip(LeftJustify(t.lodgementReference, 18))
      && d.traceBsb == RStrip(LeftJustify(t.traceBsb, 7))
      && d.traceAccountNumber == LStrip(RightJustify(t.traceAccountNumber, 9))
      && d.nameOfRemitter == RStrip(LeftJustify(t.nameOfRemitter, 16))
      && d.witholdingAmount == t.witholdingAmount
  {
    DecodeRoutingSlots(t);
    DecodeAmountSlots(t);
    DecodeNameSlots(t);
    DecodeTraceSlots(t);
    DecodeRemitterSlots(t);
  }

  // Each group of a rendered record, decoded and rendered again, is as before.

  lemma DecodedRouting(t: Transaction)
    requires Fits(t)
    ensures Routing(Decode(Record(t))) == Routing(t)
  {
    DecodeRoutingSlots(t);
    ReJustify(t.bsb, 7);
    ReRightJustify(t.accountNumber, 9);
    LeftJustifyFull(LeftJustify(t.indicator, 1));
  }

  lemma DecodedAmounts(t: Transaction)
    requires Fits(t)
    ensures Amounts(Decode(Record(t))) == Amounts(t)
  {
    DecodeSlots(t);
  }

  lemma DecodedNames(t: Transaction)
    requires Fits(t)
    ensures Names(Decode(Record(t))) == Names(t)
  {
    DecodeNameSlots(t);
    ReJustify(t.accountName, 32);
    ReJustify(t.lodgementReference, 18);
  }

  lemma DecodedTrace(t: Transaction)
    requires Fits(t)
    ensures Trace(Decode(Record(t))) == Trace(t)
  {
    DecodeTraceSlots(t);
    DecodeRemitterSlots(t);
    ReJustify(t.traceBsb, 7);
    ReRightJustify(t.traceAccountNumber, 9);
    ReJustify(t.nameOfRemitter, 16);
  }

  /**
   * Decoding a rendered detail record gives a transaction with the same code
   * and amounts that renders to the same record.
   */
  lemma DecodeRecord(t: Transaction)
    requires Fits(t)
    ensures var d := Decode(Record(t));
      && Record(d) == Record(t)
      && d.transactionCode == t.transactionCode
      && d.amount == t.amount
      && d.witholdingAmount == t.witholdingAmount
  {
    DecodeSlots(t);
    DecodedRouting(t);
    DecodedAmounts(t);
    DecodedNames(t);
    DecodedTrace(t);
  }

  // On valid transactions whose text fields carry no outer blank, decoding inverts rendering.

  lemma DecodeRoutingFields(t: Transaction)
    requires Fits(t) && Valid(t)
    ensures var d := Decode(Record(t));
      d.bsb == t.bsb && d.accountNumber == t.accountNumber && d.indicator == t.indicator
  {
    DecodeRoutingSlots(t);
    BsbUnpadded(t.bsb);
    RStripLeftJustify(t.bsb, 7);
    DigitsUnpadded(t.accountNumber);
    LStripRightJustify(t.accountNumber, 9);
    LeftJustifyFull(t.indicator);
  }

  lemma DecodeNameFields(t: Transaction)
    requires Fits(t) && Valid(t)
    requires NoTrailingSpace(t.accountName) && NoTrailingSpace(t.lodgementReference)
    requires NoTrailingSpace(t.nameOfRemitter)
    ensures var d := Decode(Record(t));
      && d.accountName == t.accountName
      && d.lodgementReference == t.lodgementReference
      && d.nameOfRemitter == t.nameOfRemitter
  {
    DecodeNameSlots(t);
    DecodeRemitterSlots(t);
    RStripLeftJustify(t.accountName, 32);
    RStripLeftJustify(t.lodgementReference, 18);
    RStripLeftJustify(t.nameOfRemitter, 16);
  }

  lemma DecodeTraceFields(t: Transaction)
    requires Fits(t) && Valid(t)
    ensures var d := Decode(Record(t));
      d.traceBsb == t.traceBsb && d.traceAccountNumber == t.traceAccountNumber
  {
    DecodeTraceSlots(t);
    BsbUnpadded(t.traceBsb);
    RStripLeftJustify(t.traceBsb, 7);
    DigitsUnpadded(t.traceAccountNumber);
    LStripRightJustify(t.traceAccountNumber, 9);
  }

  /**
   * Decoding the record of a valid transaction whose amounts fit and whose
   * free-text fields end in no blank gives that transaction back.
   */
  lemma DecodeInverse(t: Transaction)
    requires Fits(t) && Valid(t)
    requires NoTrailingSpace(t.accountName) && NoTrailingSpace(t.lodgementReference)
    requires NoTrailingSpace(t.nameOfRemitter)
    ensures Decode(Record(t)) == t
  {
    DecodeSlots(t);
    DecodeRoutingFields(t);
    DecodeNameFields(t);
    DecodeTraceFields(t);
  }

  // ------------------------------------------------ the records of the batch tests

  /** The transaction the batch tests clone, with the code and amount they set. */
  function Example(code: nat, amount: nat): Transaction
  {
    New(Attributes(Some("342-342"), Some("3244654"), None, Some(code), Some(amount),
      Some("John Doe"), Some("R435564"), Some("453-543"), Some("45656733"),
      Some("Remitter"), None))
  }

  lemma ExampleNumbers()
    ensures ZeroPad(50, 2) == "50"
    ensures ZeroPad(13, 2) == "13"
    ensures ZeroPad(0, 8) == "00000000"
  {
  }

  lemma ExampleAmounts()
    ensures ZeroPad(40, 10) == "0000000040"
    ensures ZeroPad(30, 10) == "0000000030"
    ensures ZeroPad(20, 10) == "0000000020"
    ensures ZeroPad(10, 10) == "0000000010"
  {
  }

  lemma ExampleRoutingSlots()
    ensures LeftJustify("342-342", 7) == "342-342"
    ensures RightJustify("3244654", 9) == "  3244654"
    ensures LeftJustify(" ", 1) == " "
  {
  }

  lemma ExampleNameSlots()
    ensures LeftJustify("John Doe", 32) == "John Doe                        "
    ensures LeftJustify("R435564", 18) == "R435564           "
  {
  }

  lemma ExampleTraceSlots()
    ensures LeftJustify("453-543", 7) == "453-543"
    ensures RightJustify("45656733", 9) == " 45656733"
    ensures LeftJustify("Remitter", 16) == "Remitter        "
  {
  }

  /** The detail record of the cloned test transaction, for any code and amount. */
  lemma ExampleRecord(code: nat, amount: nat)
    ensures Record(Example(code, amount))
      == "1" + "342-342" + "  3244654" + " "
         + (ZeroPad(code, 2) + ZeroPad(amount, 10))
         + ("John Doe                        " + "R435564           ")
         + ("453-543" + " 45656733" + "Remitter        " + "00000000")
  {
    ExampleRoutingSlots();
    ExampleNameSlots();
    ExampleTraceSlots();
    ExampleNumbers();
  }
}
