/** The packaging section (export-mud/imb.js): the IMB sheet (record IA),
    its detail (IB), the RT-IMB and TE-IMB attachments (IC), the DR-IMB
    attachment (ID) and the MG-IMB attachment written as the two lines IE
    and IF. */
module Imb {
  import opened Digits
  import opened Utils
  import opened Fields

  /** An IMB sheet: what was delivered, the attachment counts, the stock
      and, for the waste 150104, its aluminium and steel (kilograms). */
  datatype ImbSheet = ImbSheet(decl: Declarant, deliveredKg: Num,
    rtCount: Num, drCount: Num, teCount: Num, mgCount: Num,
    stockKg: Num, aluminiumKg: Num, steelKg: Num)

  /** getRecordIMB: the IA line. */
  function Ia(x: ImbSheet): (r: string)
    ensures |r| == 123
  {
    Head("IA", x.decl) + CountCells(x.deliveredKg, x.rtCount, x.drCount, x.teCount, x.mgCount)
      + IaStock(x)
  }

  /** The stock and the metals of the waste 150104, always written. */
  function IaStock(x: ImbSheet): (r: string)
    ensures |r| == 42
  {
    Qty(x.stockKg) + Qty(x.aluminiumKg) + Qty(x.steelKg)
  }

  /** Where the IA line keeps its counts, its filler and its quantities. */
  lemma IaLayout(x: ImbSheet)
    ensures Ia(x)[..3] == "IA;"
    ensures Ia(x)[41..81] == CountCells(x.deliveredKg, x.rtCount, x.drCount, x.teCount, x.mgCount)
    ensures Ia(x)[79..81] == "0;"
    ensures Ia(x)[81..] == IaStock(x)
  {
    hide IaStock, FormatNumber, FormatString, Qty, QtyCells, CountCells;
    var h, c := Head("IA", x.decl), CountCells(x.deliveredKg, x.rtCount, x.drCount, x.teCount, x.mgCount);
    Split3(h, c, IaStock(x));
    PrefixOf(h, c + IaStock(x), 3);
    assert h + c + IaStock(x) == h + (c + IaStock(x));
    CountCellsFiller(x.deliveredKg, x.rtCount, x.drCount, x.teCount, x.mgCount);
    SliceWithin(Ia(x), 41, c, 38, 40);
  }

  /** A detail of the sheet: one waste code received or produced. */
  datatype ImbDetail = ImbDetail(decl: Declarant, cer: Code, wasteType: Option<string>, declaredKg: Num)

  /** getRecordIMB_Det: the IB line; the waste code is written as passed. */
  function Ib(x: ImbDetail): (r: string)
    ensures |r| == 65
  {
    Head("IB", x.decl) + RawCerCell(x.cer) + Cell(FormatString(x.wasteType, 2, false)) + Qty(x.declaredKg)
  }

  /** Where the IB line keeps its waste code, type and quantity. */
  lemma IbLayout(x: ImbDetail)
    ensures Ib(x)[..3] == "IB;" && Ib(x)[41..48] == RawCerCell(x.cer)
    ensures Ib(x)[48..51] == Cell(FormatString(x.wasteType, 2, false)) && Ib(x)[51..] == Qty(x.declaredKg)
  {
    hide RawCerCell, FormatString, Qty, FormatNumber;
    var h := Head("IB", x.decl);
    Parts4(h, RawCerCell(x.cer), Cell(FormatString(x.wasteType, 2, false)), Qty(x.declaredKg));
    PrefixOf(h, Ib(x)[41..], 3);
  }

  /** The arguments of the generic IC builder after its attachment kind. */
  datatype ImbAttachment = ImbAttachment(decl: Declarant, cer: Code, attachmentNo: Num,
    party: Party, declaredKg: Num, nation: Option<string>, regulationCode: Option<string>, origin: Num)

  /** Everything the generic builder writes about the counterpart and the
      shipment of a non-RT attachment is suppressed: blank text, ISTAT
      codes and origin 0. */
  function IcSource(k: Handover, x: ImbAttachment): ImbAttachment
  {
    if k == Received then x
    else ImbAttachment(x.decl, x.cer, x.attachmentNo, Party(Blank, Blank, ZeroNum, ZeroNum, Blank, Blank, Blank),
      x.declaredKg, Blank, Blank, ZeroNum)
  }

  /** The key of an IC line: head, waste code as passed, kind and number. */
  function IcKey(k: Handover, x: ImbAttachment): (r: string)
    ensures |r| == 57
  {
    Head("IC", x.decl) + RawCerCell(x.cer) + Cell(FormatString(Some(HandoverTag(k)), 2, false))
      + Cell(FormatNumber(x.attachmentNo, 5, 0))
  }

  /** The shipment and the one-digit origin of the waste. */
  function IcTail(y: ImbAttachment): (r: string)
    ensures |r| == 44
  {
    Shipment(y.declaredKg, y.nation, y.regulationCode) + Cell(FormatNumber(y.origin, 1, 0))
  }

  /** getRecordIMB_RT_TE: the IC line. */
  function Ic(k: Handover, x: ImbAttachment): (r: string)
    ensures |r| == 231
  {
    IcKey(k, x) + PartyCells(IcSource(k, x).party) + IcTail(IcSource(k, x))
  }

  /** Where the IC line keeps each of its parts. */
  lemma IcLayout(k: Handover, x: ImbAttachment)
    ensures Ic(k, x)[..57] == IcKey(k, x)
    ensures Ic(k, x)[57..187] == PartyCells(IcSource(k, x).party) && Ic(k, x)[187..] == IcTail(IcSource(k, x))
  {
    Split3(IcKey(k, x), PartyCells(IcSource(k, x).party), IcTail(IcSource(k, x)));
  }

  lemma IcKeyLayout(k: Handover, x: ImbAttachment)
    ensures IcKey(k, x)[..3] == "IC;" && IcKey(k, x)[41..48] == RawCerCell(x.cer)
    ensures IcKey(k, x)[48..51] == HandoverTag(k) + ";"
  {
    var h := Head("IC", x.decl);
    Parts4(h, RawCerCell(x.cer), Cell(FormatString(Some(HandoverTag(k)), 2, false)),
      Cell(FormatNumber(x.attachmentNo, 5, 0)));
    PrefixOf(h, IcKey(k, x)[41..], 3);
  }

  /** An RT attachment writes what was passed. */
  lemma IcReceived(x: ImbAttachment)
    ensures IcSource(Received, x) == x
  {
  }

  /** A TE attachment writes its quantity and nothing else about the
      counterpart or the shipment. */
  lemma IcTransported(x: ImbAttachment)
    ensures PartyCells(IcSource(Transported, x).party) == Cell(Spaces(16)) + Cell(Spaces(60)) + "000;000;"
      + Cell(Spaces(30)) + Cell(Spaces(6)) + Cell(Spaces(5))
    ensures IcTail(IcSource(Transported, x)) == Qty(x.declaredKg) + Cell(Spaces(20)) + Cell(Spaces(6)) + "0;"
  {
    BlankPartyCells(Blank, Blank);
    BlankField(16);
    BlankField(60);
    BlankField(20);
    BlankField(6);
    FormatZeroDigit();
    assert NormalizeNation(Blank) == Blank;
  }

  lemma FormatZeroDigit()
    ensures FormatNumber(ZeroNum, 1, 0) == "0"
  {
    FormatNumberWhole(ZeroNum, 1);
    assert DivPow10(0, 0) == 0;
    PadDigitsOfZero(1);
  }

  /** getRecordIMB_RT: an RT-IMB attachment. */
  function ImbRt(decl: Declarant, cer: Code, attachmentNo: Num, party: Party, declaredKg: Num,
    nation: Option<string>, regulationCode: Option<string>, origin: Num): (r: string)
    ensures |r| == 231
  {
    Ic(Received, ImbAttachment(decl, cer, attachmentNo, party, declaredKg, nation, regulationCode, origin))
  }

  /** The arguments the TE wrapper hands to the generic builder. */
  function ImbTeAttachment(decl: Declarant, cer: Code, attachmentNo: Num,
    taxCode: Option<string>, name: Option<string>, declaredKg: Num): ImbAttachment
  {
    ImbAttachment(decl, cer, attachmentNo, Party(taxCode, name, ZeroNum, ZeroNum, Blank, Blank, Blank),
      declaredKg, Blank, Blank, ZeroNum)
  }

  /** getRecordIMB_TE: a TE-IMB attachment. */
  function ImbTe(decl: Declarant, cer: Code, attachmentNo: Num,
    taxCode: Option<string>, name: Option<string>, declaredKg: Num): (r: string)
    ensures |r| == 231
  {
    Ic(Transported, ImbTeAttachment(decl, cer, attachmentNo, taxCode, name, declaredKg))
  }

  /** The carrier the TE wrapper passes never reaches the line: two TE
      lines differing only in the carrier are equal. */
  lemma ImbTeIgnoresCarrier(decl: Declarant, cer: Code, attachmentNo: Num,
    t1: Option<string>, n1: Option<string>, t2: Option<string>, n2: Option<string>, declaredKg: Num)
    ensures ImbTe(decl, cer, attachmentNo, t1, n1, declaredKg) == ImbTe(decl, cer, attachmentNo, t2, n2, declaredKg)
  {
    var x1 := ImbTeAttachment(decl, cer, attachmentNo, t1, n1, declaredKg);
    var x2 := ImbTeAttachment(decl, cer, attachmentNo, t2, n2, declaredKg);
    assert IcSource(Transported, x1) == IcSource(Transported, x2);
    assert IcKey(Transported, x1) == IcKey(Transported, x2);
  }

  /** A DR-IMB attachment: packaging waste delivered to a third party. */
  datatype ImbDelivery = ImbDelivery(decl: Declarant, cer: Code, attachmentNo: Num, party: Party,
    declaredKg: Num, nation: Option<string>, regulationCode: Option<string>,
    destinations: seq<Destination>, d14Kg: Num, d15Kg: Num)

  /** The loose comparison codiceCER == '150104': the string itself or the
      number 150104. */
  predicate Is150104(c: Code)
  {
    c == CodeText("150104") || c == CodeNumber(150104)
  }

  /** getRecordIMB_DR: the ID line. */
  function Id(x: ImbDelivery): (r: string)
    requires |x.destinations| == 13
    ensures |r| == 464
  {
    IdKey(x) + IdCounterpart(x) + Shipment(x.declaredKg, x.nation, x.regulationCode)
      + Destinations(x.destinations, x.d14Kg, x.d15Kg)
  }

  function IdKey(x: ImbDelivery): (r: string)
    ensures |r| == 54
  {
    Head("ID", x.decl) + RawCerCell(x.cer) + Cell(FormatNumber(x.attachmentNo, 5, 0))
  }

  /** The counterpart, with the "waste 150104" flag between its tax code
      and its name. */
  function IdCounterpart(x: ImbDelivery): (r: string)
    ensures |r| == 132
  {
    Cell(FormatString(x.party.taxCode, 16, false)) + FlagCell(Some(Is150104(x.cer))) + PartyAfterTaxCode(x.party)
  }

  /** The party cells after the tax code. */
  function PartyAfterTaxCode(p: Party): (r: string)
    ensures |r| == 113
  {
    Cell(FormatString(p.name, 60, false)) + Cell(FormatNumber(p.province, 3, 0)) + Cell(FormatNumber(p.comune, 3, 0))
      + Cell(FormatString(p.street, 30, false)) + Cell(FormatString(p.houseNumber, 6, false))
      + Cell(FormatString(p.postcode, 5, false))
  }

  /** Where the ID line keeps each of its parts. */
  lemma IdLayout(x: ImbDelivery)
    requires |x.destinations| == 13
    ensures Id(x)[..54] == IdKey(x) && Id(x)[54..186] == IdCounterpart(x)
    ensures Id(x)[186..228] == Shipment(x.declaredKg, x.nation, x.regulationCode)
    ensures Id(x)[228..] == Destinations(x.destinations, x.d14Kg, x.d15Kg)
  {
    Parts4(IdKey(x), IdCounterpart(x), Shipment(x.declaredKg, x.nation, x.regulationCode),
      Destinations(x.destinations, x.d14Kg, x.d15Kg));
  }

  /** The flag reads 1 exactly for the waste 150104, given as a string or
      as a number; a code written with separators does not match. */
  lemma IdPackagingFlag(x: ImbDelivery)
    requires |x.destinations| == 13
    ensures Id(x)[71..73] == "1;" <==> Is150104(x.cer)
    ensures !Is150104(x.cer) ==> Id(x)[71..73] == "0;"
  {
    IdFlagAt(x);
    FlagCellOf(Is150104(x.cer));
  }

  lemma IdFlagAt(x: ImbDelivery)
    requires |x.destinations| == 13
    ensures Id(x)[71..73] == FlagCell(Some(Is150104(x.cer)))
  {
    IdLayout(x);
    IdCounterpartFlag(x);
    SliceWithin(Id(x), 54, IdCounterpart(x), 17, 19);
  }

  lemma IdCounterpartFlag(x: ImbDelivery)
    ensures IdCounterpart(x)[17..19] == FlagCell(Some(Is150104(x.cer)))
  {
    Split3(Cell(FormatString(x.party.taxCode, 16, false)), FlagCell(Some(Is150104(x.cer))), PartyAfterTaxCode(x.party));
  }

  /** Without its flag the counterpart reads exactly as the party cells of
      every other record. */
  lemma IdCounterpartIsParty(x: ImbDelivery)
    ensures IdCounterpart(x)[..17] + IdCounterpart(x)[19..] == PartyCells(x.party)
  {
    var t, f, rest := Cell(FormatString(x.party.taxCode, 16, false)), FlagCell(Some(Is150104(x.cer))),
      PartyAfterTaxCode(x.party);
    Split3(t, f, rest);
    PartyCellsSplit(x.party);
  }

  lemma PartyCellsSplit(p: Party)
    ensures PartyCells(p) == Cell(FormatString(p.taxCode, 16, false)) + PartyAfterTaxCode(p)
  {
    FirstAndRest(Cell(FormatString(p.taxCode, 16, false)), Cell(FormatString(p.name, 60, false)),
      Cell(FormatNumber(p.province, 3, 0)), Cell(FormatNumber(p.comune, 3, 0)),
      Cell(FormatString(p.street, 30, false)), Cell(FormatString(p.houseNumber, 6, false)),
      Cell(FormatString(p.postcode, 5, false)));
  }

  lemma FirstAndRest(a: string, b: string, c: string, d: string, e: string, f: string, g: string)
    ensures a + b + c + d + e + f + g == a + (b + c + d + e + f + g)
  {
  }

  /** The i-th destination of the ID line. */
  lemma IdDestinationAt(x: ImbDelivery, i: nat)
    requires |x.destinations| == 13 && i < 13
    ensures Id(x)[228 + 16 * i..244 + 16 * i] == Qty(x.destinations[i].kg)
      + Cell(FormatString(x.destinations[i].route, 1, false))
  {
    IdLayout(x);
    DestinationAt(Id(x), 228, x.destinations, Qty(x.d14Kg) + Qty(x.d15Kg), i);
  }

  /** An MG-IMB attachment: packaging waste managed by the unit, with the
      twelve disposal operations D2-D4, D6-D11, D13-D15 and the thirteen
      recovery operations R1-R13 (kilograms). */
  datatype ImbMg = ImbMg(decl: Declarant, cer: Code, attachmentNo: Num,
    byMayorOrder: Option<bool>, landfillClass: Num, landfillKg: Num,
    disposalKg: seq<Num>, recoveryKg: seq<Num>, stockRecoveryKg: Num, stockDisposalKg: Num)

  /** Head, waste code and attachment number: 41 + 7 + 6. */
  function MgKey(tag: string, x: ImbMg, stripped: bool): (r: string)
    requires |tag| == 2
    ensures |r| == 54
  {
    Head(tag, x.decl) + MgTail(x.cer, x.attachmentNo, stripped)
  }

  function IePlant(x: ImbMg): (r: string)
    ensures |r| == 16
  {
    LandfillCells(x.byMayorOrder, x.landfillClass, x.landfillKg)
  }

  /** The IE line: the plant and the disposal operations. */
  function Ie(x: ImbMg, stripped: bool): (r: string)
    requires |x.disposalKg| == 12
    ensures |r| == 238
  {
    MgKey("IE", x, stripped) + IePlant(x) + QtyList(x.disposalKg)
  }

  function IfQuantities(x: ImbMg): seq<Num>
  {
    x.recoveryKg + [x.stockRecoveryKg, x.stockDisposalKg]
  }

  /** The IF line: the recovery operations and the two stocks. */
  function If(x: ImbMg, stripped: bool): (r: string)
    requires |x.recoveryKg| == 13
    ensures |r| == 264
  {
    MgKey("IF", x, stripped) + QtyList(IfQuantities(x))
  }

  /** getRecordIMB_MG as written: the stripping step is guarded by the type
      of an identifier this function never declares, so the guard never
      holds and the waste code goes out as passed. */
  function MgAsWritten(x: ImbMg): (r: string)
    requires |x.disposalKg| == 12 && |x.recoveryKg| == 13
    ensures |r| == 238 + 2 + 264
    ensures r[..238] == Ie(x, false) && r[238..240] == CRLF && r[240..] == If(x, false)
  {
    Split3(Ie(x, false), CRLF, If(x, false));
    Ie(x, false) + CRLF + If(x, false)
  }

  /** getRecordIMB_MG as intended: the IE and IF lines, with the waste code
      stripped of separators, joined by CR LF. */
  function Mg(x: ImbMg): (r: string)
    requires |x.disposalKg| == 12 && |x.recoveryKg| == 13
    ensures |r| == 238 + 2 + 264
    ensures r[..238] == Ie(x, true) && r[238..240] == CRLF && r[240..] == If(x, true)
  {
    Split3(Ie(x, true), CRLF, If(x, true));
    Ie(x, true) + CRLF + If(x, true)
  }

  lemma IeLayout(x: ImbMg, stripped: bool)
    requires |x.disposalKg| == 12
    ensures Ie(x, stripped)[..54] == MgKey("IE", x, stripped) && Ie(x, stripped)[54..70] == IePlant(x)
    ensures Ie(x, stripped)[70..] == QtyList(x.disposalKg)
  {
    Split3(MgKey("IE", x, stripped), IePlant(x), QtyList(x.disposalKg));
  }

  lemma IfLayout(x: ImbMg, stripped: bool)
    requires |x.recoveryKg| == 13
    ensures If(x, stripped)[..54] == MgKey("IF", x, stripped) && If(x, stripped)[54..] == QtyList(IfQuantities(x))
  {
    SliceRight(MgKey("IF", x, stripped), QtyList(IfQuantities(x)));
  }

  lemma MgKeyLayout(tag: string, x: ImbMg, stripped: bool)
    requires |tag| == 2
    ensures MgKey(tag, x, stripped)[..3] == tag + ";" && MgKey(tag, x, stripped)[41..48] == MgCerCell(x.cer, stripped)
  {
    var h, t := Head(tag, x.decl), MgTail(x.cer, x.attachmentNo, stripped);
    PrefixOf(h, t, 3);
    SliceRight(h, t);
    SliceWithin(h + t, 41, t[..7], 0, 7);
  }

  /** The two lines of an MG attachment carry the same declarant, waste
      code and attachment number. */
  lemma MgSameKey(x: ImbMg, stripped: bool)
    requires |x.disposalKg| == 12 && |x.recoveryKg| == 13
    ensures Ie(x, stripped)[..3] == "IE;" && If(x, stripped)[..3] == "IF;"
    ensures Ie(x, stripped)[3..54] == If(x, stripped)[3..54]
  {
    hide FormatNumber, FormatString, Qty, QtyCells, MgTail, CerCell, RawCerCell;
    IeLayout(x, stripped);
    IfLayout(x, stripped);
    MgKeyLayout("IE", x, stripped);
    MgKeyLayout("IF", x, stripped);
    SameAfterTag(Head("IE", x.decl), Head("IF", x.decl), MgTail(x.cer, x.attachmentNo, stripped));
    SliceOfPrefix(Ie(x, stripped), 54, 0, 3);
    SliceOfPrefix(If(x, stripped), 54, 0, 3);
    SliceOfPrefix(Ie(x, stripped), 54, 3, 54);
    SliceOfPrefix(If(x, stripped), 54, 3, 54);
  }

  /** Where each MG line keeps its waste code. */
  lemma MgCerAt(x: ImbMg, stripped: bool)
    requires |x.disposalKg| == 12 && |x.recoveryKg| == 13
    ensures Ie(x, stripped)[41..48] == MgCerCell(x.cer, stripped) && If(x, stripped)[41..48] == MgCerCell(x.cer, stripped)
  {
    IeLayout(x, stripped);
    IfLayout(x, stripped);
    MgKeyLayout("IE", x, stripped);
    MgKeyLayout("IF", x, stripped);
    SliceOfPrefix(Ie(x, stripped), 54, 41, 48);
    SliceOfPrefix(If(x, stripped), 54, 41, 48);
  }

  /** In the intended lines a waste code written with separators is its six
      digits, on both lines. */
  lemma MgCerStripped(x: ImbMg, s: string)
    requires |x.disposalKg| == 12 && |x.recoveryKg| == 13
    requires x.cer == CodeText(s) && |KeepDigits(s)| == 6
    ensures Ie(x, true)[41..48] == KeepDigits(s) + ";" && If(x, true)[41..48] == KeepDigits(s) + ";"
  {
    MgCerAt(x, true);
    CerCellStripped(s);
  }

  /** As written, the code "16.01.04" is cut to "16.01." on both lines,
      where the intended lines carry "160104". */
  lemma MgAsWrittenKeepsSeparators(x: ImbMg)
    requires |x.disposalKg| == 12 && |x.recoveryKg| == 13 && x.cer == CodeText("16.01.04")
    ensures Ie(x, false)[41..48] == "16.01.;" && If(x, false)[41..48] == "16.01.;"
    ensures Ie(x, true)[41..48] == "160104;" && If(x, true)[41..48] == "160104;"
  {
    MgCerAt(x, false);
    MgCerAt(x, true);
    RawCerCellSeparated("16.01.04");
  }

  /** The landfilled quantity is written in tonnes: kilograms over 1000,
      exact to the kilogram and with no rescaling. */
  lemma IeLandfillTonnes(x: ImbMg, stripped: bool, kg: nat)
    requires |x.disposalKg| == 12 && x.landfillKg == Val(Decimal(kg, 0))
    ensures Ie(x, stripped)[58..70] == Cell(PadDigits(kg / 1000, 7) + "," + PadDigits(kg % 1000, 3))
  {
    hide FormatNumber, FormatString, Qty, QtyCells, MgTail, CerCell, RawCerCell;
    IeLayout(x, stripped);
    LandfillTonnes(x.byMayorOrder, x.landfillClass, kg);
    SliceWithin(Ie(x, stripped), 54, IePlant(x), 4, 16);
  }

  /** The i-th disposal operation of the IE line. */
  lemma IeDisposalAt(x: ImbMg, stripped: bool, i: nat)
    requires |x.disposalKg| == 12 && i < 12
    ensures Ie(x, stripped)[70 + 14 * i..84 + 14 * i] == Qty(x.disposalKg[i])
  {
    IeLayout(x, stripped);
    QtyRunAt(Ie(x, stripped), 70, x.disposalKg, i);
  }

  /** The i-th recovery operation of the IF line, then the two stocks. */
  lemma IfRecoveryAt(x: ImbMg, stripped: bool, i: nat)
    requires |x.recoveryKg| == 13 && i < 15
    ensures If(x, stripped)[54 + 14 * i..68 + 14 * i]
      == Qty(if i < 13 then x.recoveryKg[i] else if i == 13 then x.stockRecoveryKg else x.stockDisposalKg)
  {
    IfLayout(x, stripped);
    QtyRunAt(If(x, stripped), 54, IfQuantities(x), i);
  }

  /** No builder of the section raises its length flag; the combined
      disposal and recovery line is checked as the source builds it. */
  lemma NoLengthFlag(ia: ImbSheet, ib: ImbDetail, k: Handover, ic: ImbAttachment, id: ImbDelivery, ie: ImbMg)
    requires |id.destinations| == 13 && |ie.disposalKg| == 12 && |ie.recoveryKg| == 13
    ensures !Report(Ia(ia), 123).lengthMismatch && !Report(Ib(ib), 65).lengthMismatch
    ensures !Report(Ic(k, ic), 231).lengthMismatch && !Report(Id(id), 464).lengthMismatch
    ensures !Report(MgAsWritten(ie), 238 + 2 + 264).lengthMismatch
  {
    hide *;
  }
}
