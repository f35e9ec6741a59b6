/**
 * The descriptive record that opens a batch (`Aba::Batch::Headers`): its
 * fields, the constraints `validate!` checks, the 120-character record `to_s`
 * renders, and the decoder the parser applies to a line of record type `0`.
 */
module BatchHeaders {
  import opened Wrappers
  import opened AbaErrors
  import opened Fields

  const RecordType: char := '0'

  /** Reel sequence number, columns 19-20 of every descriptive record. */
  const ReelSequence: string := "01"

  /** A BSB, or no BSB at all (`bsb = nil`). */
  datatype Headers = Headers(
    bsb: Option<string>,
    financialInstitution: string,
    userName: string,
    userId: string,
    description: string,
    processAt: string)

  /** The attribute mapping `Headers.new` takes: absent keys leave a field unset. */
  datatype Attributes = Attributes(
    bsb: Option<string>,
    financialInstitution: Option<string>,
    userName: Option<string>,
    userId: Option<string>,
    description: Option<string>,
    processAt: Option<string>)

  function Get(o: Option<string>): (r: string)
    ensures o.Some? ==> r == o.value
    ensures o.None? ==> r == ""
  {
    if o.Some? then o.value else ""
  }

  /**
   * `Headers.new(attrs)`: every given attribute is stored unchanged; an
   * absent BSB stays absent and an absent text field is empty.
   */
  function New(a: Attributes): (h: Headers)
    ensures h.bsb == a.bsb
    ensures a.financialInstitution.Some? ==> h.financialInstitution == a.financialInstitution.value
    ensures a.userName.Some? ==> h.userName == a.userName.value
    ensures a.userId.Some? ==> h.userId == a.userId.value
    ensures a.description.Some? ==> h.description == a.description.value
    ensures a.processAt.Some? ==> h.processAt == a.processAt.value
  {
    Headers(a.bsb, Get(a.financialInstitution), Get(a.userName), Get(a.userId),
      Get(a.description), Get(a.processAt))
  }

  predicate IsAllSpaces(s: string) { forall i :: 0 <= i < |s| ==> s[i] == ' ' }

  /**
   * The field constraints of a descriptive record: a BSB that is absent,
   * blank or of the BSB pattern, and every field within its slot (user id
   * up to six digits, process date six digits).
   */
  predicate Valid(h: Headers) {
    && (h.bsb.None? || IsBsb(h.bsb.value) || IsAllSpaces(h.bsb.value))
    && |h.financialInstitution| <= 3
    && |h.userName| <= 26
    && |h.userId| <= 6 && AllDigits(h.userId)
    && |h.description| <= 12
    && |h.processAt| == 6 && AllDigits(h.processAt)
  }

  /** `validate!`: raises an "invalid" error exactly when `valid?` is false. */
  function Validate(h: Headers): (o: Outcome<RenderError>)
    ensures o.Fail? <==> !Valid(h)
    ensures o.Fail? ==> o.error == Invalid
  {
    if Valid(h) then Pass else Fail(Invalid)
  }

  /** Columns 2-8: the BSB, or seven blanks when there is none. */
  function BsbField(bsb: Option<string>): (r: string)
    ensures |r| == 7
  {
    match bsb
    case None => Spaces(7)
    case Some(v) => LeftJustify(v, 7)
  }

  /** The descriptive record, laid out column by column. */
  function Record(h: Headers): string
  {
    [RecordType] + BsbField(h.bsb) + AfterBsb(h)
  }

  /** Columns 9-120 of the descriptive record: everything but the BSB. */
  function AfterBsb(h: Headers): string
  {
    Institution(h) + Names(h) + Spaces(40)
  }

  /** Columns 9-30: blanks, the reel sequence, the financial institution, blanks. */
  function Institution(h: Headers): string
  {
    Spaces(10) + ReelSequence + LeftJustify(h.financialInstitution, 3) + Spaces(7)
  }

  /** Columns 31-80: user name, user id, description and processing date. */
  function Names(h: Headers): string
  {
    LeftJustify(h.userName, 26) + LeftJustify(h.userId, 6)
      + LeftJustify(h.description, 12) + LeftJustify(h.processAt, 6)
  }

  /**
   * Every text field fits its slot. Ruby's `ljust` pads but never cuts; the
   * layout here cuts a longer field to its slot, so it agrees with the
   * source only on headers whose fields fit.
   */
  predicate SlotsFit(h: Headers) {
    && (h.bsb.Some? ==> |h.bsb.value| <= 7)
    && |h.financialInstitution| <= 3 && |h.userName| <= 26 && |h.userId| <= 6
    && |h.description| <= 12 && |h.processAt| <= 6
  }

  /** No text field holds a carriage return or a line feed. */
  predicate NoBreaks(h: Headers) {
    && (h.bsb.Some? ==> HasNoBreak(h.bsb.value))
    && HasNoBreak(h.financialInstitution) && HasNoBreak(h.userName) && HasNoBreak(h.userId)
    && HasNoBreak(h.description) && HasNoBreak(h.processAt)
  }

  /** A descriptive record of such fields is one line, starting with its record type. */
  lemma RecordNoBreak(h: Headers)
    requires NoBreaks(h)
    ensures HasNoBreak(Record(h)) && |Record(h)| == 120 && Record(h)[0] == RecordType
  {
    SpacesNoBreak(7);
    SpacesNoBreak(10);
    SpacesNoBreak(40);
    if h.bsb.Some? { LeftJustifyNoBreak(h.bsb.value, 7); }
    LeftJustifyNoBreak(h.financialInstitution, 3);
    LeftJustifyNoBreak(h.userName, 26);
    LeftJustifyNoBreak(h.userId, 6);
    LeftJustifyNoBreak(h.description, 12);
    LeftJustifyNoBreak(h.processAt, 6);
  }

  /** The column layout of the descriptive record, one slot per lemma (columns 1-based). */
  lemma RecordLength(h: Headers)
    ensures |Record(h)| == 120
  {
  }

  /** The three groups of the record: column 1, columns 2-8 and columns 9-120. */
  lemma RecordGroups(h: Headers)
    ensures |Record(h)| == 120
    ensures Record(h)[0] == RecordType
    ensures Record(h)[1..8] == BsbField(h.bsb)
    ensures Record(h)[8..] == AfterBsb(h)
  {
  }

  /** The three groups of columns 9-120. */
  lemma AfterBsbGroups(h: Headers)
    ensures |Institution(h)| == 22 && |Names(h)| == 50 && |AfterBsb(h)| == 112
    ensures AfterBsb(h)[..22] == Institution(h)
    ensures AfterBsb(h)[22..72] == Names(h)
    ensures AfterBsb(h)[72..] == Spaces(40)
  {
  }

  lemma InstitutionSlots(h: Headers)
    ensures |Institution(h)| == 22
    ensures Institution(h)[..10] == Spaces(10)
    ensures Institution(h)[10..12] == ReelSequence
    ensures Institution(h)[12..15] == LeftJustify(h.financialInstitution, 3)
    ensures Institution(h)[15..] == Spaces(7)
  {
  }

  lemma NamesSlots(h: Headers)
    ensures |Names(h)| == 50
    ensures Names(h)[..26] == LeftJustify(h.userName, 26)
    ensures Names(h)[26..32] == LeftJustify(h.userId, 6)
    ensures Names(h)[32..44] == LeftJustify(h.description, 12)
    ensures Names(h)[44..] == LeftJustify(h.processAt, 6)
  {
  }

  /** Columns 2-8: the BSB slot. */
  lemma ColumnBsb(h: Headers)
    ensures |Record(h)| == 120
    ensures Record(h)[1..8] == BsbField(h.bsb)
  {
    RecordGroups(h);
  }

  /** Columns 9-30 of the record are the institution group. */
  lemma InstitutionColumns(h: Headers)
    ensures |Record(h)| == 120
    ensures Record(h)[8..30] == Institution(h)
  {
    RecordGroups(h);
    AfterBsbGroups(h);
    assert Record(h)[8..30] == Record(h)[8..][..22];
  }

  /** Columns 31-80 of the record are the names group. */
  lemma NamesColumns(h: Headers)
    ensures |Record(h)| == 120
    ensures Record(h)[30..80] == Names(h)
  {
    RecordGroups(h);
    AfterBsbGroups(h);
    assert Record(h)[30..80] == Record(h)[8..][22..72];
  }

  /** Columns 21-23: the financial institution. */
  lemma ColumnFi(h: Headers)
    ensures |Record(h)| == 120
    ensures Record(h)[20..23] == LeftJustify(h.financialInstitution, 3)
  {
    InstitutionColumns(h);
    InstitutionSlots(h);
    assert Record(h)[20..23] == Record(h)[8..30][12..15];
  }

  /** Columns 31-56: the user name. */
  lemma ColumnUserName(h: Headers)
    ensures |Record(h)| == 120
    ensures Record(h)[30..56] == LeftJustify(h.userName, 26)
  {
    NamesColumns(h);
    NamesSlots(h);
    assert Record(h)[30..56] == Record(h)[30..80][..26];
  }

  /** Columns 57-62: the user id. */
  lemma ColumnUserId(h: Headers)
    ensures |Record(h)| == 120
    ensures Record(h)[56..62] == LeftJustify(h.userId, 6)
  {
    NamesColumns(h);
    NamesSlots(h);
    assert Record(h)[56..62] == Record(h)[30..80][26..32];
  }

  /** Columns 63-74: the description. */
  lemma ColumnDescription(h: Headers)
    ensures |Record(h)| == 120
    ensures Record(h)[62..74] == LeftJustify(h.description, 12)
  {
    NamesColumns(h);
    NamesSlots(h);
    assert Record(h)[62..74] == Record(h)[30..80][32..44];
  }

  /** Columns 75-80: the processing date. */
  lemma ColumnProcessAt(h: Headers)
    ensures |Record(h)| == 120
    ensures Record(h)[74..80] == LeftJustify(h.processAt, 6)
  {
    NamesColumns(h);
    NamesSlots(h);
    assert Record(h)[74..80] == Record(h)[30..80][44..];
  }

  /** Column 1 is the record type; 9-18, 24-30 and 81-120 are blank; 19-20 the reel sequence. */
  lemma ColumnsFixed(h: Headers)
    ensures |Record(h)| == 120
    ensures Record(h)[0] == RecordType
    ensures Record(h)[8..18] == Spaces(10)
    ensures Record(h)[18..20] == ReelSequence
    ensures Record(h)[23..30] == Spaces(7)
    ensures Record(h)[80..120] == Spaces(40)
  {
    RecordGroups(h);
    AfterBsbGroups(h);
    InstitutionColumns(h);
    InstitutionSlots(h);
    assert Record(h)[8..18] == Record(h)[8..30][..10];
    assert Record(h)[18..20] == Record(h)[8..30][10..12];
    assert Record(h)[23..30] == Record(h)[8..30][15..];
    assert Record(h)[80..120] == Record(h)[8..][72..];
  }

  /** `to_s`: `validate!` first, then the 120-character descriptive record. */
  function ToS(h: Headers): (r: Result<string, RenderError>)
    ensures r.Failure? <==> !Valid(h)
    ensures r.Failure? ==> r.error == Invalid
    ensures r.Success? ==> |r.value| == 120 && r.value == Record(h)
  {
    RecordLength(h);
    match Validate(h)
    case Fail(e) => Failure(e)
    case Pass => Success(Record(h))
  }

  /** The decoder for a line of record type `0`: each slot read back, its pad stripped. */
  function Decode(line: string): Headers
  {
    var bsb := Slice(line, 1, 8);
    Headers(
      if IsAllSpaces(bsb) then None else Some(RStrip(bsb)),
      RStrip(Slice(line, 20, 23)),
      RStrip(Slice(line, 30, 56)),
      RStrip(Slice(line, 56, 62)),
      RStrip(Slice(line, 62, 74)),
      RStrip(Slice(line, 74, 80)))
  }

  /** Headers whose slots hold the same text render to the same record. */
  lemma SameSlotsSameRecord(a: Headers, b: Headers)
    requires BsbField(a.bsb) == BsbField(b.bsb)
    requires LeftJustify(a.financialInstitution, 3) == LeftJustify(b.financialInstitution, 3)
    requires LeftJustify(a.userName, 26) == LeftJustify(b.userName, 26)
    requires LeftJustify(a.userId, 6) == LeftJustify(b.userId, 6)
    requires LeftJustify(a.description, 12) == LeftJustify(b.description, 12)
    requires LeftJustify(a.processAt, 6) == LeftJustify(b.processAt, 6)
    ensures Record(a) == Record(b)
  {
  }

  /** What the decoder reads from each slot of a rendered descriptive record. */
  lemma DecodeSlots(h: Headers)
    ensures var d := Decode(Record(h));
      && d.bsb == DecodedBsb(h.bsb)
      && d.financialInstitution == RStrip(LeftJustify(h.financialInstitution, 3))
      && d.userName == RStrip(LeftJustify(h.userName, 26))
      && d.userId == RStrip(LeftJustify(h.userId, 6))
      && d.description == RStrip(LeftJustify(h.description, 12))
      && d.processAt == RStrip(LeftJustify(h.processAt, 6))
  {
    ColumnBsb(h);
    ColumnFi(h);
    ColumnUserName(h);
    ColumnUserId(h);
    ColumnDescription(h);
    ColumnProcessAt(h);
  }

  /** The BSB slot of the decoded headers holds the same text as the original's. */
  lemma DecodedBsbSlot(h: Headers)
    ensures BsbField(Decode(Record(h)).bsb) == BsbField(h.bsb)
  {
    var d := Decode(Record(h));
    DecodeSlots(h);
    var b := BsbField(h.bsb);
    if IsAllSpaces(b) {
      assert BsbField(d.bsb) == b;
    } else {
      LeftJustifyRStrip(b);
    }
  }

  /** The text slots of the decoded headers hold the same text as the original's. */
  lemma DecodedTextSlots(h: Headers)
    ensures var d := Decode(Record(h));
      && LeftJustify(d.financialInstitution, 3) == LeftJustify(h.financialInstitution, 3)
      && LeftJustify(d.userName, 26) == LeftJustify(h.userName, 26)
      && LeftJustify(d.userId, 6) == LeftJustify(h.userId, 6)
      && LeftJustify(d.description, 12) == LeftJustify(h.description, 12)
      && LeftJustify(d.processAt, 6) == LeftJustify(h.processAt, 6)
  {
    DecodeSlots(h);
    ReJustify(h.financialInstitution, 3);
    ReJustify(h.userName, 26);
    ReJustify(h.userId, 6);
    ReJustify(h.description, 12);
    ReJustify(h.processAt, 6);
  }

  /** Decoding a rendered descriptive record gives headers that render to the same record. */
  lemma DecodeRecord(h: Headers)
    ensures Record(Decode(Record(h))) == Record(h)
  {
    DecodedBsbSlot(h);
    DecodedTextSlots(h);
    SameSlotsSameRecord(Decode(Record(h)), h);
  }

  /** The BSB the decoder reads back from columns 2-8. */
  function DecodedBsb(bsb: Option<string>): Option<string>
  {
    var b := BsbField(bsb);
    if IsAllSpaces(b) then None else Some(RStrip(b))
  }

  /** A BSB of the pattern is read back as itself; any other valid one as no BSB. */
  lemma DecodedBsbValid(bsb: Option<string>)
    requires bsb.None? || IsBsb(bsb.value) || IsAllSpaces(bsb.value)
    ensures DecodedBsb(bsb) == if bsb.Some? && IsBsb(bsb.value) then bsb else None
  {
    var b := BsbField(bsb);
    if bsb.Some? && IsBsb(bsb.value) {
      assert b == bsb.value;
      assert !IsAllSpaces(b) by { assert b[0] != ' '; }
      assert RStrip(b) == b by { assert b[6] != ' '; }
    } else if bsb.Some? {
      assert IsAllSpaces(b) by {
        forall i | 0 <= i < 7 ensures b[i] == ' ' {}
      }
    }
  }

  /** A digit string up to `w` long is read back unchanged from a slot of width `w`. */
  lemma DigitsSlot(s: string, w: nat)
    requires |s| <= w && AllDigits(s)
    ensures RStrip(LeftJustify(s, w)) == s
  {
    if |s| > 0 { assert IsDigit(s[|s| - 1]); }
    RStripLeftJustify(s, w);
  }

  /** Decoding the record of valid headers gives valid headers. */
  lemma DecodeKeepsValid(h: Headers)
    requires Valid(h)
    ensures Valid(Decode(Record(h)))
  {
    DecodeSlots(h);
    DecodedBsbValid(h.bsb);
    DigitsSlot(h.userId, 6);
    DigitsSlot(h.processAt, 6);
  }

  /** Read back from a valid record: the BSB, if it had the pattern. */
  lemma DecodeBsb(h: Headers)
    requires Valid(h)
    ensures Decode(Record(h)).bsb == if h.bsb.Some? && IsBsb(h.bsb.value) then h.bsb else None
  {
    DecodeSlots(h);
    DecodedBsbValid(h.bsb);
  }

  /** Read back from a valid record: the financial institution, if it did not end in a blank. */
  lemma DecodeFinancialInstitution(h: Headers)
    requires Valid(h) && NoTrailingSpace(h.financialInstitution)
    ensures Decode(Record(h)).financialInstitution == h.financialInstitution
  {
    DecodeSlots(h);
    RStripLeftJustify(h.financialInstitution, 3);
  }

  /** Read back from a valid record: the user name, if it did not end in a blank. */
  lemma DecodeUserName(h: Headers)
    requires Valid(h) && NoTrailingSpace(h.userName)
    ensures Decode(Record(h)).userName == h.userName
  {
    DecodeSlots(h);
    RStripLeftJustify(h.userName, 26);
  }

  /** Read back from a valid record: the description, if it did not end in a blank. */
  lemma DecodeDescription(h: Headers)
    requires Valid(h) && NoTrailingSpace(h.description)
    ensures Decode(Record(h)).description == h.description
  {
    DecodeSlots(h);
    RStripLeftJustify(h.description, 12);
  }

  /** Read back from a valid record: the user id and the processing date. */
  lemma DecodeDigitFields(h: Headers)
    requires Valid(h)
    ensures Decode(Record(h)).userId == h.userId
    ensures Decode(Record(h)).processAt == h.processAt
  {
    DecodeSlots(h);
    DigitsSlot(h.userId, 6);
    DigitsSlot(h.processAt, 6);
  }

  /**
   * The decoder inverts rendering on valid headers whose text fields carry no
   * trailing blank; a blank BSB comes back as no BSB.
   */
  lemma DecodeInverse(h: Headers)
    requires Valid(h)
    requires NoTrailingSpace(h.financialInstitution) && NoTrailingSpace(h.userName)
    requires NoTrailingSpace(h.description)
    ensures Decode(Record(h)) == h.(bsb := if h.bsb.Some? && IsBsb(h.bsb.value) then h.bsb else None)
  {
    DecodeBsb(h);
    DecodeFinancialInstitution(h);
    DecodeUserName(h);
    DecodeDescription(h);
    DecodeDigitFields(h);
  }

  /** Setting `bsb` changes columns 2-8 of the record and nothing else. */
  lemma BsbOnlyInColumns2To8(h: Headers, bsb: Option<string>)
    ensures |Record(h.(bsb := bsb))| == |Record(h)| == 120
    ensures Record(h.(bsb := bsb))[..1] == Record(h)[..1]
    ensures Record(h.(bsb := bsb))[8..] == Record(h)[8..]
    ensures Record(h.(bsb := bsb))[1..8] == BsbField(bsb)
  {
    RecordLength(h);
    assert AfterBsb(h.(bsb := bsb)) == AfterBsb(h);
  }

  /** With no BSB, columns 2-8 are blank. */
  lemma NoBsbIsBlank(h: Headers)
    requires h.bsb.None?
    ensures IsAllSpaces(Record(h)[1..8])
  {
    RecordLength(h);
  }

  /** A BSB of the pattern stands verbatim in columns 2-8. */
  lemma BsbVerbatim(h: Headers)
    requires h.bsb.Some? && IsBsb(h.bsb.value)
    ensures Record(h)[1..8] == h.bsb.value
  {
    RecordLength(h);
  }

  lemma ExampleSlotsShort()
    ensures Spaces(10) == "          "
    ensures Spaces(7) == "       "
    ensures LeftJustify("ABC", 3) == "ABC"
    ensures LeftJustify("987654", 6) == "987654"
    ensures LeftJustify("190615", 6) == "190615"
  {
  }

  lemma ExampleSlotUserName()
    ensures LeftJustify("John Doe", 26) == "John Doe                  "
  {
  }

  lemma ExampleSlotDescription()
    ensures LeftJustify("Description", 12) == "Description "
  {
  }

  lemma ExampleSlotFiller()
    ensures Spaces(40) == "                                        "
  {
  }

  /** Columns 9-120 of the two example records of the headers tests, slot by slot. */
  lemma ExampleAfterBsb()
    ensures AfterBsb(Headers(None, "ABC", "John Doe", "987654", "Description", "190615"))
      == ("          " + "01" + "ABC" + "       ")
         + ("John Doe                  " + "987654" + "Description " + "190615")
         + "                                        "
  {
    ExampleSlotsShort();
    ExampleSlotUserName();
    ExampleSlotDescription();
    ExampleSlotFiller();
  }

  /** The descriptive record the headers tests expect when no BSB was given. */
  lemma RenderedWithoutBsb()
    ensures ToS(Headers(None, "ABC", "John Doe", "987654", "Description", "190615"))
      == Success("0" + "       " + (("          " + "01" + "ABC" + "       ")
                 + ("John Doe                  " + "987654" + "Description " + "190615")
                 + "                                        "))
  {
    var h := Headers(None, "ABC", "John Doe", "987654", "Description", "190615");
    assert Valid(h);
    ExampleAfterBsb();
    assert BsbField(None) == "       ";
  }

  /** The descriptive record the headers tests expect when BSB "123-456" was given. */
  lemma RenderedWithBsb()
    ensures ToS(Headers(Some("123-456"), "ABC", "John Doe", "987654", "Description", "190615"))
      == Success("0" + "123-456" + (("          " + "01" + "ABC" + "       ")
                 + ("John Doe                  " + "987654" + "Description " + "190615")
                 + "                                        "))
  {
    var h := Headers(Some("123-456"), "ABC", "John Doe", "987654", "Description", "190615");
    assert Valid(h);
    ExampleAfterBsb();
    assert AfterBsb(h) == AfterBsb(h.(bsb := None));
    assert BsbField(Some("123-456")) == "123-456";
  }
}
