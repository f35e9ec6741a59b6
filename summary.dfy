/**
 * The file total record (`Aba::Parser::Summary` and the summary line a batch
 * renders): the totals and count of a batch, rendered into and read back
 * from fixed columns.
 */
module FileTotal {
  import opened Fields

  const RecordType: char := '7'

  /** The sentinel BSB of every file total record. */
  const Bsb: string := "999-999"

  /** The mapping the decoder yields for a file total line. */
  datatype Summary = Summary(
    bsb: string,
    netTotalAmount: nat,
    creditTotalAmount: nat,
    debitTotalAmount: nat,
    count: nat)

  /** `record_type`: the marker a file total line starts with. */
  function RecordTypeOf(): (c: char)
    ensures c == RecordType && c == '7'
  {
    RecordType
  }

  /** Every total fits its ten-digit slot and the count its six-digit one. */
  predicate Fits(net: nat, credit: nat, debit: nat, count: nat) {
    net < Pow10(10) && credit < Pow10(10) && debit < Pow10(10) && count < Pow10(6)
  }

  /**
   * The file total record of the given (absolute) totals and count,
   * laid out column by column in three groups.
   */
  function Record(net: nat, credit: nat, debit: nat, count: nat): string
  {
    Lead() + Totals(net, credit, debit) + CountSlot(count)
  }

  /** Columns 1-20: record type, sentinel BSB, blanks. */
  function Lead(): string
  {
    [RecordType] + Bsb + Spaces(12)
  }

  /** Columns 21-50: net, credit and debit totals, ten digits each. */
  function Totals(net: nat, credit: nat, debit: nat): string
  {
    ZeroPad(net, 10) + ZeroPad(credit, 10) + ZeroPad(debit, 10)
  }

  /** Columns 51-120: blanks, the count in six digits, blanks. */
  function CountSlot(count: nat): string
  {
    Spaces(24) + ZeroPad(count, 6) + Spaces(40)
  }

  lemma GroupWidths(net: nat, credit: nat, debit: nat, count: nat)
    requires Fits(net, credit, debit, count)
    ensures |Lead()| == 20
    ensures |Totals(net, credit, debit)| == 30
    ensures |CountSlot(count)| == 70
  {
    ZeroPadWidth(net, 10);
    ZeroPadWidth(credit, 10);
    ZeroPadWidth(debit, 10);
    ZeroPadWidth(count, 6);
  }

  lemma RecordGroups(net: nat, credit: nat, debit: nat, count: nat)
    requires Fits(net, credit, debit, count)
    ensures var r := Record(net, credit, debit, count);
      && |r| == 120
      && r[..20] == Lead()
      && r[20..50] == Totals(net, credit, debit)
      && r[50..] == CountSlot(count)
  {
    GroupWidths(net, credit, debit, count);
  }

  lemma LeadColumns()
    ensures Lead()[0] == RecordType && Lead()[1..8] == Bsb && Lead()[8..20] == Spaces(12)
  {
  }

  lemma TotalsColumns(net: nat, credit: nat, debit: nat)
    requires net < Pow10(10) && credit < Pow10(10) && debit < Pow10(10)
    ensures var t := Totals(net, credit, debit);
      && |t| == 30
      && t[..10] == ZeroPad(net, 10)
      && t[10..20] == ZeroPad(credit, 10)
      && t[20..] == ZeroPad(debit, 10)
  {
    ZeroPadWidth(net, 10);
    ZeroPadWidth(credit, 10);
    ZeroPadWidth(debit, 10);
  }

  lemma CountSlotColumns(count: nat)
    requires count < Pow10(6)
    ensures var c := CountSlot(count);
      && |c| == 70
      && c[..24] == Spaces(24)
      && c[24..30] == ZeroPad(count, 6)
      && c[30..] == Spaces(40)
  {
    ZeroPadWidth(count, 6);
  }

  /**
   * The column layout of the file total record (1-based columns in the
   * comments), when the totals and count fit their slots.
   */
  lemma RecordColumns(net: nat, credit: nat, debit: nat, count: nat)
    requires Fits(net, credit, debit, count)
    ensures |Record(net, credit, debit, count)| == 120
    ensures Record(net, credit, debit, count)[0] == RecordType              // col 1
    ensures Record(net, credit, debit, count)[1..8] == Bsb                  // cols 2-8
    ensures Record(net, credit, debit, count)[20..30] == ZeroPad(net, 10)   // cols 21-30
    ensures Record(net, credit, debit, count)[30..40] == ZeroPad(credit, 10) // cols 31-40
    ensures Record(net, credit, debit, count)[40..50] == ZeroPad(debit, 10) // cols 41-50
    ensures Record(net, credit, debit, count)[74..80] == ZeroPad(count, 6)  // cols 75-80
  {
    var r := Record(net, credit, debit, count);
    RecordGroups(net, credit, debit, count);
    LeadColumns();
    TotalsColumns(net, credit, debit);
    CountSlotColumns(count);
    assert r[1..8] == r[..20][1..8];
    assert r[20..30] == r[20..50][..10];
    assert r[30..40] == r[20..50][10..20];
    assert r[40..50] == r[20..50][20..];
    assert r[74..80] == r[50..][24..30];
  }

  /** Columns 9-20, 51-74 and 81-120 of the file total record are blank. */
  lemma RecordBlanks(net: nat, credit: nat, debit: nat, count: nat)
    requires Fits(net, credit, debit, count)
    ensures |Record(net, credit, debit, count)| == 120
    ensures Record(net, credit, debit, count)[8..20] == Spaces(12)
    ensures Record(net, credit, debit, count)[50..74] == Spaces(24)
    ensures Record(net, credit, debit, count)[80..120] == Spaces(40)
  {
    var r := Record(net, credit, debit, count);
    RecordGroups(net, credit, debit, count);
    LeadColumns();
    CountSlotColumns(count);
    assert r[8..20] == r[..20][8..20];
    assert r[50..74] == r[50..][..24];
    assert r[80..120] == r[50..][30..];
  }

  lemma GroupsNoBreak(net: nat, credit: nat, debit: nat, count: nat)
    ensures HasNoBreak(Lead())
    ensures HasNoBreak(Totals(net, credit, debit))
    ensures HasNoBreak(CountSlot(count))
  {
    SpacesNoBreak(12);
    SpacesNoBreak(24);
    SpacesNoBreak(40);
    ZeroPadNoBreak(net, 10);
    ZeroPadNoBreak(credit, 10);
    ZeroPadNoBreak(debit, 10);
    ZeroPadNoBreak(count, 6);
  }

  /** A file total record is one line, starting with its record type. */
  lemma RecordNoBreak(net: nat, credit: nat, debit: nat, count: nat)
    requires Fits(net, credit, debit, count)
    ensures var r := Record(net, credit, debit, count);
      HasNoBreak(r) && |r| == 120 && r[0] == RecordType
  {
    GroupWidths(net, credit, debit, count);
    GroupsNoBreak(net, credit, debit, count);
    assert Record(net, credit, debit, count)[0] == Lead()[0];
  }

  /** The decoder for a line of record type `7`: the BSB verbatim, the numbers read back. */
  function Decode(line: string): Summary
  {
    Summary(
      Slice(line, 1, 8),
      ReadNumber(Slice(line, 20, 30)),
      ReadNumber(Slice(line, 30, 40)),
      ReadNumber(Slice(line, 40, 50)),
      ReadNumber(Slice(line, 74, 80)))
  }

  /** Decoding a rendered file total record gives back its totals and count. */
  lemma DecodeRecord(net: nat, credit: nat, debit: nat, count: nat)
    requires Fits(net, credit, debit, count)
    ensures Decode(Record(net, credit, debit, count)) == Summary(Bsb, net, credit, debit, count)
  {
    RecordColumns(net, credit, debit, count);
    ReadZeroPad(net, 10);
    ReadZeroPad(credit, 10);
    ReadZeroPad(debit, 10);
    ReadZeroPad(count, 6);
  }

  /** Records of fitting totals are equal only when their totals and counts are. */
  lemma RecordInjective(net: nat, credit: nat, debit: nat, count: nat,
                        net': nat, credit': nat, debit': nat, count': nat)
    requires Fits(net, credit, debit, count) && Fits(net', credit', debit', count')
    requires Record(net, credit, debit, count) == Record(net', credit', debit', count')
    ensures net == net' && credit == credit' && debit == debit' && count == count'
  {
    DecodeRecord(net, credit, debit, count);
    DecodeRecord(net', credit', debit', count');
  }

  lemma ExampleNet()
    ensures ZeroPad(12345, 10) == "0000012345"
  {
    assert DecimalDigits(1) == "1";
    assert DecimalDigits(12) == "12";
    assert DecimalDigits(123) == "123";
    assert DecimalDigits(1234) == "1234";
    assert DecimalDigits(12345) == "12345";
  }

  lemma ExampleCredit()
    ensures ZeroPad(67890, 10) == "0000067890"
  {
    assert DecimalDigits(6) == "6";
    assert DecimalDigits(67) == "67";
    assert DecimalDigits(678) == "678";
    assert DecimalDigits(6789) == "6789";
    assert DecimalDigits(67890) == "67890";
  }

  lemma ExampleDebit()
    ensures ZeroPad(80235, 10) == "0000080235"
  {
    assert DecimalDigits(8) == "8";
    assert DecimalDigits(80) == "80";
    assert DecimalDigits(802) == "802";
    assert DecimalDigits(8023) == "8023";
    assert DecimalDigits(80235) == "80235";
  }

  lemma ExampleCount()
    ensures ZeroPad(12, 6) == "000012"
  {
    assert DecimalDigits(1) == "1";
    assert DecimalDigits(12) == "12";
  }

  lemma ExampleBlanks()
    ensures Spaces(12) == "            "
    ensures Spaces(24) == "                        "
  {
  }

  lemma ExampleFiller()
    ensures Spaces(40) == "                                        "
  {
  }

  /**
   * The line of the summary decoder test, written slot by slot, is the
   * record of its totals and count.
   */
  lemma ExampleLine()
    ensures Record(12345, 67890, 80235, 12)
      == ("7" + "999-999" + "            ")
         + ("0000012345" + "0000067890" + "0000080235")
         + ("                        " + "000012" + "                                        ")
  {
    ExampleNet();
    ExampleCredit();
    ExampleDebit();
    ExampleCount();
    ExampleBlanks();
    ExampleFiller();
  }

  /** The decoder test: the file total line read back field by field. */
  lemma ExampleDecode()
    ensures Decode(("7" + "999-999" + "            ")
                   + ("0000012345" + "0000067890" + "0000080235")
                   + ("                        " + "000012" + "                                        "))
      == Summary("999-999", 12345, 67890, 80235, 12)
  {
    ExampleLine();
    assert Fits(12345, 67890, 80235, 12);
    DecodeRecord(12345, 67890, 80235, 12);
  }
}
