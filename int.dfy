/** The brokerage section (export-mud/int.js): the INT sheet (record DA)
    and its UO/UD attachments naming the units of origin and destination
    (record DB). */
module Int {
  import opened Digits
  import opened Utils
  import opened Fields

  /** An INT sheet: a waste traded or brokered without holding it. */
  datatype IntSheet = IntSheet(decl: Declarant, sheetNo: Num, cer: Code, state: PhysicalState,
    brokeredKg: Num, originCount: Num, destinationCount: Num)

  /** getRecordINT: the DA line. */
  function Da(x: IntSheet): (r: string)
    ensures |r| == 93
  {
    SheetKey("DA", x.decl, x.sheetNo, x.cer) + StateCells(x.state) + Qty(x.brokeredKg)
      + (Cell(FormatNumber(x.originCount, 5, 0)) + Cell(FormatNumber(x.destinationCount, 5, 0)))
  }

  /** Where the DA line keeps its tag, waste code, physical state, quantity
      and attachment counts. */
  lemma DaLayout(x: IntSheet)
    ensures Da(x)[..3] == "DA;"
    ensures Da(x)[46..53] == CerCell(x.cer)
    ensures Da(x)[53..67] == StateCells(x.state)
    ensures Da(x)[67..81] == Qty(x.brokeredKg)
    ensures Da(x)[81..] == Cell(FormatNumber(x.originCount, 5, 0)) + Cell(FormatNumber(x.destinationCount, 5, 0))
  {
    DaParts(x);
    OpensWithKey(Da(x), "DA", x.decl, x.sheetNo, x.cer);
  }

  lemma DaParts(x: IntSheet)
    ensures Da(x)[..53] == SheetKey("DA", x.decl, x.sheetNo, x.cer)
    ensures Da(x)[53..67] == StateCells(x.state)
    ensures Da(x)[67..81] == Qty(x.brokeredKg)
    ensures Da(x)[81..] == Cell(FormatNumber(x.originCount, 5, 0)) + Cell(FormatNumber(x.destinationCount, 5, 0))
  {
    Parts4(SheetKey("DA", x.decl, x.sheetNo, x.cer), StateCells(x.state), Qty(x.brokeredKg),
      Cell(FormatNumber(x.originCount, 5, 0)) + Cell(FormatNumber(x.destinationCount, 5, 0)));
  }

  /** A waste code written with separators reaches the DA line as its six
      digits. */
  lemma DaCerStripped(x: IntSheet, s: string)
    requires x.cer == CodeText(s) && |KeepDigits(s)| == 6
    ensures Da(x)[46..53] == KeepDigits(s) + ";"
  {
    DaLayout(x);
    CerCellStripped(s);
  }

  /** The two kinds of DB attachment: unit of origin, unit of destination. */
  datatype Unit = UO | UD

  function UnitTag(k: Unit): (r: string)
    ensures |r| == 2
  {
    match k
    case UO => "UO"
    case UD => "UD"
  }

  /** The arguments of the generic DB builder after its attachment kind. */
  datatype UnitAttachment = UnitAttachment(decl: Declarant, sheetNo: Num, cer: Code, attachmentNo: Num,
    taxCode: Option<string>, name: Option<string>, province: Num, comune: Num,
    street: Option<string>, houseNumber: Option<string>, nation: Option<string>, declaredKg: Num)

  /** getRecordINT_UO_UD: the DB line. */
  function Db(k: Unit, x: UnitAttachment): (r: string)
    ensures |r| == 221
  {
    SheetKey("DB", x.decl, x.sheetNo, x.cer) + Cell(FormatString(Some(UnitTag(k)), 2, false)) + DbBody(x)
  }

  /** Everything after the kind: the attachment number, the unit, its
      nation and the declared quantity. */
  function DbBody(x: UnitAttachment): (r: string)
    ensures |r| == 165
  {
    Cell(FormatNumber(x.attachmentNo, 5, 0)) + UnitCells(x)
      + Cell(FormatString(NormalizeNation(x.nation), 20, false)) + Qty(x.declaredKg)
  }

  /** Tax code, name, ISTAT province and comune, street and house number of
      the unit (no postcode). */
  function UnitCells(x: UnitAttachment): (r: string)
    ensures |r| == 124
  {
    Cell(FormatString(x.taxCode, 16, false)) + Cell(FormatString(x.name, 60, false))
      + Cell(FormatNumber(x.province, 3, 0)) + Cell(FormatNumber(x.comune, 3, 0))
      + Cell(FormatString(x.street, 30, false)) + Cell(FormatString(x.houseNumber, 6, false))
  }

  /** Where the DB line keeps its tag, kind and body. */
  lemma DbLayout(k: Unit, x: UnitAttachment)
    ensures Db(k, x)[..3] == "DB;"
    ensures Db(k, x)[..53] == SheetKey("DB", x.decl, x.sheetNo, x.cer)
    ensures Db(k, x)[53..56] == UnitTag(k) + ";"
    ensures Db(k, x)[56..] == DbBody(x)
  {
    hide DbBody, FormatNumber, CerCell, Upper;
    UpperOfCapitals(UnitTag(k));
    var key := SheetKey("DB", x.decl, x.sheetNo, x.cer);
    Split3(key, Cell(FormatString(Some(UnitTag(k)), 2, false)), DbBody(x));
    PrefixOf(key, Cell(FormatString(Some(UnitTag(k)), 2, false)) + DbBody(x), 3);
    assert key + Cell(FormatString(Some(UnitTag(k)), 2, false)) + DbBody(x)
      == key + (Cell(FormatString(Some(UnitTag(k)), 2, false)) + DbBody(x));
  }

  /** Where the body keeps the unit, its nation and the quantity. */
  lemma DbBodyLayout(x: UnitAttachment)
    ensures DbBody(x)[6..130] == UnitCells(x)
    ensures DbBody(x)[130..151] == Cell(FormatString(NormalizeNation(x.nation), 20, false))
    ensures DbBody(x)[151..] == Qty(x.declaredKg)
  {
    Parts4(Cell(FormatNumber(x.attachmentNo, 5, 0)), UnitCells(x),
      Cell(FormatString(NormalizeNation(x.nation), 20, false)), Qty(x.declaredKg));
  }

  /** A UO line and a UD line for the same arguments differ only in the
      two characters of the kind. */
  lemma DbKindsDiffer(x: UnitAttachment)
    ensures Db(UO, x)[..53] == Db(UD, x)[..53]
    ensures Db(UO, x)[53..56] == "UO;" && Db(UD, x)[53..56] == "UD;"
    ensures Db(UO, x)[56..] == Db(UD, x)[56..]
  {
    hide DbBody, SheetKey;
    DbLayout(UO, x);
    DbLayout(UD, x);
  }

  /** The unit's nation: blank for every spelling of Italy, otherwise the
      name upper-cased. */
  lemma DbNation(k: Unit, x: UnitAttachment, s: string)
    requires x.nation == Some(s)
    ensures IsItaly(Upper(s)) ==> DbBody(x)[130..151] == Cell(Spaces(20))
    ensures !IsItaly(Upper(s)) ==> DbBody(x)[130..151] == Cell(FormatString(Some(Upper(s)), 20, true))
  {
    DbBodyLayout(x);
    if IsItaly(Upper(s)) {
      ItalyRendersBlank(s);
    } else {
      UpperIdempotent(s);
    }
  }

  /** getRecordINT_UO: a unit of origin. */
  function IntUo(x: UnitAttachment): (r: string)
    ensures |r| == 221
  {
    Db(UO, x)
  }

  /** getRecordINT_UD: a unit of destination. */
  function IntUd(x: UnitAttachment): (r: string)
    ensures |r| == 221
  {
    Db(UD, x)
  }

  /** Neither builder raises its length flag. */
  lemma NoLengthFlag(da: IntSheet, du: Unit, db: UnitAttachment)
    ensures !Report(Da(da), 93).lengthMismatch && !Report(Db(du, db), 221).lengthMismatch
  {
    hide *;
  }
}
