/** The waste section (export-mud/rif.js): the RIF sheet (record BA), its
    RT/DR/TE attachments (record BB), the RE attachment (record BC) and the
    MG attachment written as the two lines BD and BE. */
module Rif {
  import opened Digits
  import opened Utils
  import opened Fields

  /** A RIF sheet: one waste code handled by the local unit, with the
      quantities produced, received, delivered and in stock (kilograms). */
  datatype RifSheet = RifSheet(decl: Declarant, sheetNo: Num, cer: Code, state: PhysicalState,
    producedKg: Num, receivedKg: Num, rtCount: Num, producedOutsideKg: Num, reCount: Num,
    transportedKg: Num, teCount: Num, deliveredKg: Num, drCount: Num,
    stockRecoveryKg: Num, stockDisposalKg: Num, sentRecoveryKg: Num, sentDisposalKg: Num)

  /** getRecordRIF: the BA line. */
  function Ba(x: RifSheet): (r: string)
    ensures |r| == 217
  {
    SheetKey("BA", x.decl, x.sheetNo, x.cer) + StateCells(x.state) + BaQuantities(x)
  }

  /** The quantities of a sheet, each followed by the number of attachments
      that detail it. */
  function BaQuantities(x: RifSheet): (r: string)
    ensures |r| == 150
  {
    Qty(x.producedKg) + Qty(x.receivedKg) + Cell(FormatNumber(x.rtCount, 5, 0))
      + Qty(x.producedOutsideKg) + Cell(FormatNumber(x.reCount, 5, 0))
      + Qty(x.transportedKg) + Cell(FormatNumber(x.teCount, 5, 0))
      + Qty(x.deliveredKg) + Cell(FormatNumber(x.drCount, 5, 0))
      + Qty(x.stockRecoveryKg) + Qty(x.stockDisposalKg) + Qty(x.sentRecoveryKg) + Qty(x.sentDisposalKg)
  }

  /** Where the BA line keeps its tag, waste code, physical state and
      quantities. */
  lemma BaLayout(x: RifSheet)
    ensures Ba(x)[..3] == "BA;"
    ensures Ba(x)[46..53] == CerCell(x.cer)
    ensures Ba(x)[53..67] == StateCells(x.state)
    ensures Ba(x)[67..] == BaQuantities(x)
  {
    hide CerCell, StateCells, BaQuantities, FormatNumber, FormatString, Upper;
    var k, st, q := SheetKey("BA", x.decl, x.sheetNo, x.cer), StateCells(x.state), BaQuantities(x);
    Split3(k, st, q);
    PrefixOf(k, st + q, 53);
    assert k + st + q == k + (st + q);
  }

  /** A waste code written with separators ("15.01.04") reaches the BA line
      as its six digits. */
  lemma BaCerStripped(x: RifSheet, s: string)
    requires x.cer == CodeText(s) && |KeepDigits(s)| == 6
    ensures Ba(x)[46..53] == KeepDigits(s) + ";"
  {
    BaLayout(x);
    CerCellStripped(s);
  }

  /** The kind of a BB attachment: waste received from (RT), delivered to
      (DR) or transported by (TE) a third party. */
  datatype Attachment = RT | DR | TE

  function AttachmentTag(k: Attachment): (r: string)
    ensures |r| == 2
  {
    match k
    case RT => "RT"
    case DR => "DR"
    case TE => "TE"
  }

  /** The arguments of the generic BB builder after its attachment kind. */
  datatype RifAttachment = RifAttachment(decl: Declarant, sheetNo: Num, cer: Code, attachmentNo: Num,
    party: Party, declaredKg: Num, nation: Option<string>, regulationCode: Option<string>,
    fromPrivates: Option<bool>, disposalKg: Num, materialRecoveryKg: Num, energyRecoveryKg: Num)

  /** The counterpart as written: for RT from private citizens no tax code
      or name; for TE no ISTAT codes (0); for TE, and for RT from private
      citizens, no address. */
  function BbParty(k: Attachment, x: RifAttachment): Party
  {
    var anonymous := k == RT && Truthy(x.fromPrivates);
    var located := k == DR || k == RT;
    var addressed := located && !Truthy(x.fromPrivates);
    var p := x.party;
    Party(if anonymous then Blank else p.taxCode, if anonymous then Blank else p.name,
      if located then p.province else ZeroNum, if located then p.comune else ZeroNum,
      if addressed then p.street else Blank, if addressed then p.houseNumber else Blank,
      if addressed then p.postcode else Blank)
  }

  /** The one-character "received from private citizens" cell: the flag for
      RT, blank otherwise. */
  function PrivatesCell(k: Attachment, x: RifAttachment): (r: string)
    ensures |r| == 2
  {
    Cell(FormatString(if k == RT then Some(FormatBoolean(x.fromPrivates)) else Blank, 1, false))
  }

  /** The three quantities sent abroad: given only for a DR attachment whose
      nation is a foreign one, otherwise empty objects. */
  function AbroadCells(k: Attachment, x: RifAttachment): (r: string)
    ensures |r| == 42
  {
    if k == DR && HasNation(NormalizeNation(x.nation)) then
      Qty(x.disposalKg) + Qty(x.materialRecoveryKg) + Qty(x.energyRecoveryKg)
    else
      QtyCells(Suppressed) + QtyCells(Suppressed) + QtyCells(Suppressed)
  }

  /** getRecordRIF_RT_DR_TE: the BB line. */
  function Bb(k: Attachment, x: RifAttachment): (r: string)
    ensures |r| == 278
  {
    SheetKey("BB", x.decl, x.sheetNo, x.cer)
      + Cell(FormatString(Some(AttachmentTag(k)), 2, false)) + Cell(FormatNumber(x.attachmentNo, 5, 0))
      + PartyCells(BbParty(k, x)) + BbTail(k, x)
  }

  /** The declared quantity, the destination nation, the regulation code,
      the private-citizens flag and the quantities sent abroad. */
  function BbTail(k: Attachment, x: RifAttachment): (r: string)
    ensures |r| == 86
  {
    Qty(x.declaredKg) + Cell(FormatString(NormalizeNation(x.nation), 20, false))
      + Cell(FormatString(x.regulationCode, 6, false)) + PrivatesCell(k, x) + AbroadCells(k, x)
  }

  /** Where the BB line keeps each of its parts. */
  lemma BbLayout(k: Attachment, x: RifAttachment)
    ensures Bb(k, x)[..3] == "BB;"
    ensures Bb(k, x)[46..53] == CerCell(x.cer)
    ensures Bb(k, x)[53..56] == AttachmentTag(k) + ";"
    ensures Bb(k, x)[62..192] == PartyCells(BbParty(k, x))
    ensures Bb(k, x)[192..] == BbTail(k, x)
  {
    hide FormatNumber, PartyCells, BbTail, CerCell, BbParty;
    assert Upper(AttachmentTag(k)) == AttachmentTag(k);
    var key := SheetKey("BB", x.decl, x.sheetNo, x.cer);
    Parts5(key, Cell(FormatString(Some(AttachmentTag(k)), 2, false)), Cell(FormatNumber(x.attachmentNo, 5, 0)),
      PartyCells(BbParty(k, x)), BbTail(k, x));
    PrefixOf(Bb(k, x)[..53], Bb(k, x)[53..], 3);
  }

  lemma BbTailLayout(k: Attachment, x: RifAttachment)
    ensures BbTail(k, x)[..14] == Qty(x.declaredKg)
    ensures BbTail(k, x)[14..35] == Cell(FormatString(NormalizeNation(x.nation), 20, false))
    ensures BbTail(k, x)[42..44] == PrivatesCell(k, x)
    ensures BbTail(k, x)[44..] == AbroadCells(k, x)
  {
    Parts5(Qty(x.declaredKg), Cell(FormatString(NormalizeNation(x.nation), 20, false)),
      Cell(FormatString(x.regulationCode, 6, false)), PrivatesCell(k, x), AbroadCells(k, x));
  }

  /** Waste received from private citizens names no one: tax code, name and
      address are blank, the ISTAT codes stay, and the flag reads 1. */
  lemma BbFromPrivates(x: RifAttachment)
    requires Truthy(x.fromPrivates)
    ensures PartyCells(BbParty(RT, x)) == Cell(Spaces(16)) + Cell(Spaces(60))
      + Cell(FormatNumber(x.party.province, 3, 0)) + Cell(FormatNumber(x.party.comune, 3, 0))
      + Cell(Spaces(30)) + Cell(Spaces(6)) + Cell(Spaces(5))
    ensures PrivatesCell(RT, x) == "1;"
  {
    hide FormatNumber, Upper;
    assert BbParty(RT, x) == Party(Blank, Blank, x.party.province, x.party.comune, Blank, Blank, Blank);
  }

  /** Waste received from a company, or delivered to anyone, carries the
      counterpart unchanged; only RT carries the flag, 0 here. (The DR
      wrapper always passes "not from private citizens".) */
  lemma BbNamedParty(k: Attachment, x: RifAttachment)
    requires (k == DR || k == RT) && !Truthy(x.fromPrivates)
    ensures BbParty(k, x) == x.party
    ensures PrivatesCell(k, x) == if k == RT then "0;" else " ;"
  {
  }

  /** A transporter is named but not located: ISTAT codes 000 and a blank
      address, whatever was passed; and no private-citizens flag. */
  lemma BbTransporter(x: RifAttachment)
    ensures PartyCells(BbParty(TE, x)) == Cell(FormatString(x.party.taxCode, 16, false))
      + Cell(FormatString(x.party.name, 60, false)) + "000;000;"
      + Cell(Spaces(30)) + Cell(Spaces(6)) + Cell(Spaces(5))
    ensures PrivatesCell(TE, x) == " ;"
  {
    BlankPartyCells(x.party.taxCode, x.party.name);
  }

  /** The quantities sent abroad are written exactly when a DR attachment
      names a foreign nation; otherwise each reads zero with unit 0. */
  lemma BbAbroad(k: Attachment, x: RifAttachment)
    ensures k == DR && HasNation(NormalizeNation(x.nation)) ==>
      AbroadCells(k, x) == Qty(x.disposalKg) + Qty(x.materialRecoveryKg) + Qty(x.energyRecoveryKg)
    ensures !(k == DR && HasNation(NormalizeNation(x.nation))) ==>
      AbroadCells(k, x) == SuppressedCells
  {
    if !(k == DR && HasNation(NormalizeNation(x.nation))) {
      var z := QtyCells(Suppressed);
      assert AbroadCells(k, x) == z + z + z;
      QtySuppressed();
    }
  }

  /** Italy, however spelt, is no foreign nation: a blank nation field and
      no quantities sent abroad. */
  lemma BbItaly(k: Attachment, x: RifAttachment, s: string)
    requires x.nation == Some(s) && IsItaly(Upper(s))
    ensures BbTail(k, x)[14..35] == Cell(Spaces(20))
    ensures BbTail(k, x)[44..] == SuppressedCells
  {
    BbTailLayout(k, x);
    ItalyRendersBlank(s);
    BbAbroad(k, x);
  }

  /** getRecordRIF_RT: an RT attachment; nothing is sent abroad. */
  function RifRt(decl: Declarant, sheetNo: Num, cer: Code, attachmentNo: Num, party: Party,
    declaredKg: Num, nation: Option<string>, regulationCode: Option<string>, fromPrivates: Option<bool>): (r: string)
    ensures |r| == 278
    ensures r[236..] == SuppressedCells
  {
    var x := RifAttachment(decl, sheetNo, cer, attachmentNo, party, declaredKg, nation, regulationCode,
      fromPrivates, Null, Null, Null);
    BbLayout(RT, x);
    BbTailLayout(RT, x);
    BbAbroad(RT, x);
    Bb(RT, x)
  }

  /** getRecordRIF_DR: a DR attachment; never from private citizens. */
  function RifDr(decl: Declarant, sheetNo: Num, cer: Code, attachmentNo: Num, party: Party,
    declaredKg: Num, nation: Option<string>, regulationCode: Option<string>,
    disposalKg: Num, materialRecoveryKg: Num, energyRecoveryKg: Num): (r: string)
    ensures |r| == 278
    ensures r[62..192] == PartyCells(party) && r[234..236] == " ;"
  {
    var x := RifAttachment(decl, sheetNo, cer, attachmentNo, party, declaredKg, nation, regulationCode,
      Some(false), disposalKg, materialRecoveryKg, energyRecoveryKg);
    var r := Bb(DR, x);
    BbLayout(DR, x);
    BbTailLayout(DR, x);
    BbNamedParty(DR, x);
    SliceOfSuffix(r, 192, 42, 44);
    r
  }

  /** getRecordRIF_TE: a TE attachment names only the transporter. */
  function RifTe(decl: Declarant, sheetNo: Num, cer: Code, attachmentNo: Num,
    taxCode: Option<string>, name: Option<string>): (r: string)
    ensures |r| == 278
  {
    Bb(TE, TeAttachment(decl, sheetNo, cer, attachmentNo, taxCode, name))
  }

  /** The arguments the TE wrapper hands to the generic builder. */
  function TeAttachment(decl: Declarant, sheetNo: Num, cer: Code, attachmentNo: Num,
    taxCode: Option<string>, name: Option<string>): RifAttachment
  {
    RifAttachment(decl, sheetNo, cer, attachmentNo, Party(taxCode, name, Null, Null, None, None, None),
      Null, None, None, Some(false), Null, Null, Null)
  }

  /** Everything after the transporter's name in a TE line is constant. */
  lemma RifTeFixed(decl: Declarant, sheetNo: Num, cer: Code, attachmentNo: Num,
    taxCode: Option<string>, name: Option<string>)
    ensures var r := RifTe(decl, sheetNo, cer, attachmentNo, taxCode, name);
      r[62..192] == Cell(FormatString(taxCode, 16, false)) + Cell(FormatString(name, 60, false)) + "000;000;"
        + Cell(Spaces(30)) + Cell(Spaces(6)) + Cell(Spaces(5))
      && r[192..] == ZeroQty + Cell(Spaces(20)) + Cell(Spaces(6)) + " ;" + SuppressedCells
  {
    var x := TeAttachment(decl, sheetNo, cer, attachmentNo, taxCode, name);
    BbLayout(TE, x);
    BbTransporter(x);
    TeTail(x);
  }

  lemma TeTail(x: RifAttachment)
    requires x.declaredKg == Null && x.nation == None && x.regulationCode == None
    ensures BbTail(TE, x) == ZeroQty + Cell(Spaces(20)) + Cell(Spaces(6)) + " ;" + SuppressedCells
  {
    BbTransporter(x);
    BbAbroad(TE, x);
    QtyNull();
    BlankField(20);
    BlankField(6);
    assert NormalizeNation(x.nation) == None;
    var q, n, g := Qty(x.declaredKg), Cell(FormatString(None, 20, false)), Cell(FormatString(None, 6, false));
    assert BbTail(TE, x) == q + n + g + PrivatesCell(TE, x) + AbroadCells(TE, x);
    assert n == Cell(Spaces(20)) && g == Cell(Spaces(6));
  }

  /** An RE attachment: waste produced outside the local unit. */
  datatype ReAttachment = ReAttachment(decl: Declarant, sheetNo: Num, cer: Code, attachmentNo: Num,
    province: Num, comune: Num, activity: Num, declaredKg: Num)

  /** getRecordRIF_RE: the BC line. */
  function Bc(x: ReAttachment): (r: string)
    ensures |r| == 83
  {
    SheetKey("BC", x.decl, x.sheetNo, x.cer) + Cell(FormatNumber(x.attachmentNo, 5, 0))
      + Cell(FormatNumber(x.province, 3, 0)) + Cell(FormatNumber(x.comune, 3, 0))
      + Cell(FormatNumber(x.activity, 1, 0)) + Qty(x.declaredKg)
  }

  /** Where the BC line keeps its tag, originating activity and declared
      quantity. */
  lemma BcLayout(x: ReAttachment)
    ensures Bc(x)[..3] == "BC;"
    ensures Bc(x)[67..69] == Cell(FormatNumber(x.activity, 1, 0))
    ensures Bc(x)[69..] == Qty(x.declaredKg)
  {
    Parts6(SheetKey("BC", x.decl, x.sheetNo, x.cer), Cell(FormatNumber(x.attachmentNo, 5, 0)),
      Cell(FormatNumber(x.province, 3, 0)), Cell(FormatNumber(x.comune, 3, 0)),
      Cell(FormatNumber(x.activity, 1, 0)), Qty(x.declaredKg));
  }

  /** The originating activity (0, 2, 4, 5 or 6 in the declaration) is
      written as its single digit. */
  lemma BcActivity(x: ReAttachment, a: nat)
    requires x.activity == Val(Decimal(a, 0)) && a < 10
    ensures Bc(x)[67..69] == [DigitChar(a), ';']
  {
    BcLayout(x);
    ActivityDigit(a);
  }

  lemma ActivityDigit(a: nat)
    requires a < 10
    ensures FormatNumber(Val(Decimal(a, 0)), 1, 0) == [DigitChar(a)]
  {
    assert Pow10(0) == 1;
    assert ModPow10(a, 0) == 0 && DivPow10(a, 0) == a;
    FormatNumberWhole(Val(Decimal(a, 0)), 1);
    PadDigitsOfSmall(a, 1);
  }

  /** An MG attachment: waste managed by the local unit, with the twelve
      disposal operations D2-D4, D6-D11, D13-D15 and the thirteen recovery
      operations R1-R13 (kilograms). */
  datatype MgAttachment = MgAttachment(decl: Declarant, sheetNo: Num, cer: Code, attachmentNo: Num,
    plantType: Num, byMayorOrder: Option<bool>, landfillClass: Num, landfillKg: Num,
    disposalKg: seq<Num>, recoveryKg: seq<Num>, stockRecoveryKg: Num, stockDisposalKg: Num)

  /** The BD line: the plant, the landfill (in tonnes, never rescaled and
      without a unit) and the disposal operations. */
  function Bd(x: MgAttachment): (r: string)
    requires |x.disposalKg| == 12
    ensures |r| == 245
  {
    MgKey("BD", x) + BdPlant(x) + QtyList(x.disposalKg)
  }

  /** The sheet key and the attachment number that open both lines. */
  function MgKey(tag: string, x: MgAttachment): (r: string)
    requires |tag| == 2
    ensures |r| == 58
  {
    SheetKey(tag, x.decl, x.sheetNo, x.cer) + Cell(FormatNumber(x.attachmentNo, 4, 0))
  }

  function BdPlant(x: MgAttachment): (r: string)
    ensures |r| == 19
  {
    Cell(FormatNumber(x.plantType, 2, 0)) + Cell(FormatBoolean(x.byMayorOrder))
      + Cell(FormatNumber(x.landfillClass, 1, 0)) + Cell(FormatNumber(DivThousand(x.landfillKg), 7, 3))
  }

  /** The BE line: the recovery operations and the two stocks. */
  function Be(x: MgAttachment): (r: string)
    requires |x.recoveryKg| == 13
    ensures |r| == 268
  {
    MgKey("BE", x) + QtyList(BeQuantities(x))
  }

  function BeQuantities(x: MgAttachment): seq<Num>
  {
    x.recoveryKg + [x.stockRecoveryKg, x.stockDisposalKg]
  }

  /** getRecordRIF_MG: the BD and BE lines joined by CR LF. */
  function Mg(x: MgAttachment): (r: string)
    requires |x.disposalKg| == 12 && |x.recoveryKg| == 13
    ensures |r| == 245 + 2 + 268
    ensures r[..245] == Bd(x) && r[245..247] == CRLF && r[247..] == Be(x)
  {
    Split3(Bd(x), CRLF, Be(x));
    Bd(x) + CRLF + Be(x)
  }

  /** The two lines of an MG attachment carry the same declarant, sheet,
      waste code and attachment number. */
  lemma MgSameKey(x: MgAttachment)
    requires |x.disposalKg| == 12 && |x.recoveryKg| == 13
    ensures Bd(x)[..3] == "BD;" && Be(x)[..3] == "BE;"
    ensures Bd(x)[3..58] == Be(x)[3..58]
  {
    BdLayout(x);
    BeLayout(x);
    MgKeyRetag(x);
  }

  lemma MgKeyRetag(x: MgAttachment)
    ensures MgKey("BD", x)[..3] == "BD;" && MgKey("BE", x)[..3] == "BE;"
    ensures MgKey("BD", x)[3..] == MgKey("BE", x)[3..]
  {
    var n := Cell(FormatNumber(x.attachmentNo, 4, 0));
    var kd, ke := SheetKey("BD", x.decl, x.sheetNo, x.cer), SheetKey("BE", x.decl, x.sheetNo, x.cer);
    SheetKeyRetag("BD", "BE", x.decl, x.sheetNo, x.cer);
    SameAfterTag(kd, ke, n);
  }

  /** Where the BD line keeps its key, its plant cells and its disposal
      quantities. */
  lemma BdLayout(x: MgAttachment)
    requires |x.disposalKg| == 12
    ensures Bd(x)[..58] == MgKey("BD", x) && Bd(x)[58..77] == BdPlant(x) && Bd(x)[77..] == QtyList(x.disposalKg)
  {
    Split3(MgKey("BD", x), BdPlant(x), QtyList(x.disposalKg));
  }

  /** The landfilled quantity is written in tonnes: kilograms over 1000,
      exact to the kilogram and with no rescaling. */
  lemma BdLandfillTonnes(x: MgAttachment, kg: nat)
    requires |x.disposalKg| == 12 && x.landfillKg == Val(Decimal(kg, 0))
    ensures Bd(x)[65..77] == Cell(PadDigits(kg / 1000, 7) + "," + PadDigits(kg % 1000, 3))
  {
    BdLayout(x);
    LandfillTonnes(x, kg);
    SliceOfSuffix(Bd(x), 58, 7, 19);
  }

  lemma LandfillTonnes(x: MgAttachment, kg: nat)
    requires x.landfillKg == Val(Decimal(kg, 0))
    ensures BdPlant(x)[7..] == Cell(PadDigits(kg / 1000, 7) + "," + PadDigits(kg % 1000, 3))
  {
    SliceRight(Cell(FormatNumber(x.plantType, 2, 0)) + Cell(FormatBoolean(x.byMayorOrder))
      + Cell(FormatNumber(x.landfillClass, 1, 0)), Cell(FormatNumber(DivThousand(x.landfillKg), 7, 3)));
    assert DivThousand(x.landfillKg) == Val(Decimal(kg, 3));
    FormatThousandths(kg, 7);
  }

  /** The i-th disposal operation of the BD line. */
  lemma BdDisposalAt(x: MgAttachment, i: nat)
    requires |x.disposalKg| == 12 && i < 12
    ensures Bd(x)[77 + 14 * i..91 + 14 * i] == Qty(x.disposalKg[i])
  {
    BdLayout(x);
    QtyRunAt(Bd(x), 77, x.disposalKg, i);
  }

  /** The i-th recovery operation of the BE line, followed by the two
      stocks. */
  lemma BeRecoveryAt(x: MgAttachment, i: nat)
    requires |x.recoveryKg| == 13 && i < 15
    ensures Be(x)[58 + 14 * i..72 + 14 * i]
      == Qty(if i < 13 then x.recoveryKg[i] else if i == 13 then x.stockRecoveryKg else x.stockDisposalKg)
  {
    BeLayout(x);
    QtyRunAt(Be(x), 58, BeQuantities(x), i);
  }

  lemma BeLayout(x: MgAttachment)
    requires |x.recoveryKg| == 13
    ensures Be(x)[..58] == MgKey("BE", x) && Be(x)[58..] == QtyList(BeQuantities(x))
  {
    SliceRight(MgKey("BE", x), QtyList(BeQuantities(x)));
  }

  /** No builder of the section raises its length flag. */
  lemma NoLengthFlag(ba: RifSheet, bk: Attachment, bb: RifAttachment, bc: ReAttachment, bd: MgAttachment)
    requires |bd.disposalKg| == 12 && |bd.recoveryKg| == 13
    ensures !Report(Ba(ba), 217).lengthMismatch && !Report(Bb(bk, bb), 278).lengthMismatch
    ensures !Report(Bc(bc), 83).lengthMismatch && !Report(Mg(bd), 245 + 2 + 268).lengthMismatch
  {
    hide *;
  }
}
