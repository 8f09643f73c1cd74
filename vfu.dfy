/** The end-of-life vehicle section (export-mud/vfu.js): the AUT/FRA/ROT
    sheet (record VC), its detail (VD), the RT-VEIC and TE-VEIC attachments
    (VE), the DR-VEIC attachment (VF) and the MG-VEIC attachment written as
    the two lines VG and VH. */
module Vfu {
  import opened Digits
  import opened Utils
  import opened Fields

  /** The head and the sheet kind ("AUT", "FRA" or "ROT") that open every
      record of the section: 41 + 4 characters. */
  function VfuKey(tag: string, d: Declarant, kind: Option<string>): (r: string)
    requires |tag| == 2
    ensures |r| == 45 && r[..3] == tag + ";" && r[41..] == Cell(FormatString(kind, 3, false))
  {
    var h, c := Head(tag, d), Cell(FormatString(kind, 3, false));
    PrefixOf(h, c, 3);
    SliceRight(h, c);
    h + c
  }

  /** Two keys differ in their tag only. */
  lemma VfuKeyUntagged(tag: string, d: Declarant, kind: Option<string>)
    requires |tag| == 2
    ensures VfuKey(tag, d, kind)[3..] == DeclarantCells(d) + Cell(FormatString(kind, 3, false))
  {
    var h, c := Head(tag, d), Cell(FormatString(kind, 3, false));
    assert (h + c)[3..] == h[3..] + c;
  }

  /** The builders test the sheet kind as passed, case and all. */
  predicate IsKind(kind: Option<string>, k: string)
  {
    kind == Some(k)
  }

  /** An AUT/FRA/ROT sheet: what was delivered, the attachment counts, what
      was done in house and by third parties, the stock, and the vehicles
      with code 160104 received (kilograms). */
  datatype VfuSheet = VfuSheet(decl: Declarant, kind: Option<string>, deliveredKg: Num,
    rtCount: Num, drCount: Num, teCount: Num, mgCount: Num,
    ownDisposalKg: Num, ownMaterialKg: Num, ownReuseKg: Num,
    thirdDisposalKg: Num, thirdMaterialKg: Num, thirdEnergyKg: Num, stockKg: Num,
    before1980Kg: Num, since1980Kg: Num, stock160104Kg: Num)

  /** getRecordVFU: the VC line. */
  function Vc(x: VfuSheet): (r: string)
    ensures |r| == 225
  {
    VfuKey("VC", x.decl, x.kind) + VcCounts(x) + VcOwn(x) + VcThird(x) + VcVehicles(x)
  }

  function VcCounts(x: VfuSheet): (r: string)
    ensures |r| == 40
  {
    CountCells(x.deliveredKg, x.rtCount, x.drCount, x.teCount, x.mgCount)
  }

  /** The in-house disposal and material recovery (FRA sheets only) and the
      in-house reuse (AUT and ROT sheets only). */
  function VcOwn(x: VfuSheet): (r: string)
    ensures |r| == 42
  {
    KeptQty(IsKind(x.kind, "FRA"), x.ownDisposalKg) + KeptQty(IsKind(x.kind, "FRA"), x.ownMaterialKg)
      + KeptQty(IsKind(x.kind, "AUT") || IsKind(x.kind, "ROT"), x.ownReuseKg)
  }

  /** What third parties disposed of and recovered, and the stock: written
      for every sheet. */
  function VcThird(x: VfuSheet): (r: string)
    ensures |r| == 56
  {
    Qty(x.thirdDisposalKg) + Qty(x.thirdMaterialKg) + Qty(x.thirdEnergyKg) + Qty(x.stockKg)
  }

  /** The 160104 vehicles received before and since 1980 and their stock:
      AUT sheets only. */
  function VcVehicles(x: VfuSheet): (r: string)
    ensures |r| == 42
  {
    KeptQty(IsKind(x.kind, "AUT"), x.before1980Kg) + KeptQty(IsKind(x.kind, "AUT"), x.since1980Kg)
      + KeptQty(IsKind(x.kind, "AUT"), x.stock160104Kg)
  }

  /** Where the VC line keeps each of its parts. */
  lemma VcLayout(x: VfuSheet)
    ensures Vc(x)[..3] == "VC;" && Vc(x)[41..45] == Cell(FormatString(x.kind, 3, false))
    ensures Vc(x)[45..85] == VcCounts(x) && Vc(x)[85..127] == VcOwn(x)
    ensures Vc(x)[127..183] == VcThird(x) && Vc(x)[183..] == VcVehicles(x)
  {
    hide VcCounts, VcOwn, VcThird, VcVehicles, FormatNumber;
    var k := VfuKey("VC", x.decl, x.kind);
    Parts5(k, VcCounts(x), VcOwn(x), VcThird(x), VcVehicles(x));
    assert k[..3] == "VC;";
    SliceOfSuffix(Vc(x), 0, 41, 45);
  }

  /** The filler after the attachment counts is the single character 0. */
  lemma VcFiller(x: VfuSheet)
    ensures Vc(x)[83..85] == "0;"
  {
    hide VcOwn, VcThird, VcVehicles, FormatNumber, FormatString, Qty;
    VcLayout(x);
    CountCellsFiller(x.deliveredKg, x.rtCount, x.drCount, x.teCount, x.mgCount);
    SliceOfSuffix(Vc(x), 45, 38, 40);
  }

  /** Which in-house quantities a sheet carries: disposal and material
      recovery on a FRA sheet, reuse on an AUT or ROT sheet, none on any
      other; what does not apply reads zero with unit 0. */
  lemma VcOwnBySheet(x: VfuSheet)
    ensures IsKind(x.kind, "FRA") ==> VcOwn(x) == Qty(x.ownDisposalKg) + Qty(x.ownMaterialKg) + SuppressedQty
    ensures IsKind(x.kind, "AUT") || IsKind(x.kind, "ROT") ==>
      VcOwn(x) == SuppressedQty + SuppressedQty + Qty(x.ownReuseKg)
    ensures !IsKind(x.kind, "FRA") && !IsKind(x.kind, "AUT") && !IsKind(x.kind, "ROT") ==>
      VcOwn(x) == SuppressedCells
  {
    var fra, reuse := IsKind(x.kind, "FRA"), IsKind(x.kind, "AUT") || IsKind(x.kind, "ROT");
    KeptQtyCases(fra, x.ownDisposalKg);
    KeptQtyCases(fra, x.ownMaterialKg);
    KeptQtyCases(reuse, x.ownReuseKg);
  }

  /** The 160104 vehicles are written exactly on an AUT sheet. */
  lemma VcVehiclesBySheet(x: VfuSheet)
    ensures IsKind(x.kind, "AUT") ==> VcVehicles(x) == Qty(x.before1980Kg) + Qty(x.since1980Kg) + Qty(x.stock160104Kg)
    ensures !IsKind(x.kind, "AUT") ==> VcVehicles(x) == SuppressedCells
  {
    var aut := IsKind(x.kind, "AUT");
    KeptQtyCases(aut, x.before1980Kg);
    KeptQtyCases(aut, x.since1980Kg);
    KeptQtyCases(aut, x.stock160104Kg);
  }

  /** A sheet kind passed in lower case is written upper-case but matches
      none of the tests: the line then carries no in-house quantity and no
      160104 vehicle. */
  lemma VcLowerCaseKind(x: VfuSheet, s: string)
    requires x.kind == Some(s) && (s == "aut" || s == "fra" || s == "rot")
    ensures Vc(x)[41..45] == Cell(Upper(s))
    ensures Vc(x)[85..127] == SuppressedCells && Vc(x)[183..] == SuppressedCells
  {
    hide VcCounts, VcOwn, VcThird, VcVehicles, FormatNumber, Qty;
    VcLayout(x);
    VcOwnBySheet(x);
    VcVehiclesBySheet(x);
  }

  /** A detail of a sheet: one waste code received from third parties
      ("RT") or produced in the unit ("PP"). */
  datatype VfuDetail = VfuDetail(decl: Declarant, kind: Option<string>, section: Option<string>,
    cer: Code, declaredKg: Num)

  /** getRecordVFU_Det: the VD line; the waste code is written as passed. */
  function Vd(x: VfuDetail): (r: string)
    ensures |r| == 69
  {
    VfuKey("VD", x.decl, x.kind) + Cell(FormatString(x.section, 2, false)) + RawCerCell(x.cer)
      + Qty(x.declaredKg)
  }

  /** Where the VD line keeps its section, waste code and quantity. */
  lemma VdLayout(x: VfuDetail)
    ensures Vd(x)[..3] == "VD;"
    ensures Vd(x)[45..48] == Cell(FormatString(x.section, 2, false))
    ensures Vd(x)[48..55] == RawCerCell(x.cer) && Vd(x)[55..] == Qty(x.declaredKg)
  {
    var k := VfuKey("VD", x.decl, x.kind);
    Parts4(k, Cell(FormatString(x.section, 2, false)), RawCerCell(x.cer), Qty(x.declaredKg));
    PrefixOf(k, Vd(x)[45..], 3);
  }

  /** The arguments of the generic VE builder after its attachment kind. */
  datatype VfuAttachment = VfuAttachment(decl: Declarant, kind: Option<string>, cer: Code,
    attachmentNo: Num, fromPrivates: Option<bool>, party: Party, declaredKg: Num,
    nation: Option<string>, regulationCode: Option<string>)

  /** The private-citizens flag as written: only an RT attachment keeps it. */
  function VeFromPrivates(k: Handover, x: VfuAttachment): Option<bool>
  {
    if k == Received then x.fromPrivates else Some(false)
  }

  /** The counterpart as written: suppressed altogether (blank text, ISTAT
      codes 0) for TE and for RT from private citizens. */
  function VeParty(k: Handover, x: VfuAttachment): Party
  {
    if k != Received || Truthy(VeFromPrivates(k, x)) then Party(Blank, Blank, ZeroNum, ZeroNum, Blank, Blank, Blank)
    else x.party
  }

  /** The quantity, the nation (upper-cased, Italy dropped) and the
      regulation code; nation and code only for RT. */
  function VeTail(k: Handover, x: VfuAttachment): (r: string)
    ensures |r| == 42
  {
    Qty(x.declaredKg) + Cell(FormatString(NormalizeNation(if k == Received then x.nation else Blank), 20, false))
      + Cell(FormatString(if k == Received then x.regulationCode else Blank, 6, false))
  }

  /** The key of a VE line: head, sheet kind, the waste code as passed, the
      attachment kind and number. */
  function VeKey(k: Handover, x: VfuAttachment): (r: string)
    ensures |r| == 61
  {
    VfuKey("VE", x.decl, x.kind) + RawCerCell(x.cer) + Cell(FormatString(Some(HandoverTag(k)), 2, false))
      + Cell(FormatNumber(x.attachmentNo, 5, 0))
  }

  /** getRecordVFU_RT_TE: the VE line. */
  function Ve(k: Handover, x: VfuAttachment): (r: string)
    ensures |r| == 235
  {
    VeKey(k, x) + VeBody(k, x)
  }

  /** The private-citizens flag, the counterpart and the tail. */
  function VeBody(k: Handover, x: VfuAttachment): (r: string)
    ensures |r| == 174
  {
    Cell(FormatBoolean(VeFromPrivates(k, x))) + PartyCells(VeParty(k, x)) + VeTail(k, x)
  }

  /** Where the VE line keeps each of its parts. */
  lemma VeLayout(k: Handover, x: VfuAttachment)
    ensures Ve(k, x)[..61] == VeKey(k, x) && Ve(k, x)[61..] == VeBody(k, x)
    ensures VeBody(k, x)[..2] == Cell(FormatBoolean(VeFromPrivates(k, x)))
    ensures VeBody(k, x)[2..132] == PartyCells(VeParty(k, x)) && VeBody(k, x)[132..] == VeTail(k, x)
  {
    SliceRight(VeKey(k, x), VeBody(k, x));
    PrefixOf(VeKey(k, x), VeBody(k, x), 61);
    Split3(Cell(FormatBoolean(VeFromPrivates(k, x))), PartyCells(VeParty(k, x)), VeTail(k, x));
  }

  /** The key carries the tag, the waste code as passed and the kind. */
  lemma VeKeyLayout(k: Handover, x: VfuAttachment)
    ensures VeKey(k, x)[..3] == "VE;" && VeKey(k, x)[45..52] == RawCerCell(x.cer)
    ensures VeKey(k, x)[52..55] == HandoverTag(k) + ";"
  {
    assert Upper(HandoverTag(k)) == HandoverTag(k);
    var h := VfuKey("VE", x.decl, x.kind);
    Parts4(h, RawCerCell(x.cer), Cell(FormatString(Some(HandoverTag(k)), 2, false)),
      Cell(FormatNumber(x.attachmentNo, 5, 0)));
    PrefixOf(h, VeKey(k, x)[45..], 3);
  }

  /** The flag reads 1 exactly for an RT attachment from private citizens. */
  lemma VeFlag(k: Handover, x: VfuAttachment)
    ensures Cell(FormatBoolean(VeFromPrivates(k, x))) == "1;" <==> k == Received && Truthy(x.fromPrivates)
    ensures Cell(FormatBoolean(VeFromPrivates(k, x))) != "1;" ==> Cell(FormatBoolean(VeFromPrivates(k, x))) == "0;"
  {
    assert "0;"[0] != "1;"[0];
  }

  /** A TE attachment, and an RT attachment from private citizens, name no
      one: blank tax code, name and address, ISTAT codes 000. */
  lemma VeAnonymous(k: Handover, x: VfuAttachment)
    requires k == Transported || Truthy(x.fromPrivates)
    ensures PartyCells(VeParty(k, x)) == Cell(Spaces(16)) + Cell(Spaces(60)) + "000;000;"
      + Cell(Spaces(30)) + Cell(Spaces(6)) + Cell(Spaces(5))
  {
    BlankPartyCells(Blank, Blank);
    BlankField(16);
    BlankField(60);
  }

  /** Vehicles received from a company carry the counterpart unchanged. */
  lemma VeNamed(x: VfuAttachment)
    requires !Truthy(x.fromPrivates)
    ensures VeParty(Received, x) == x.party
  {
  }

  /** A TE attachment writes its quantity and nothing after it: no nation
      and no regulation code, whatever was passed. */
  lemma VeTransportTail(x: VfuAttachment)
    ensures VeTail(Transported, x) == Qty(x.declaredKg) + Cell(Spaces(20)) + Cell(Spaces(6))
  {
    assert NormalizeNation(Blank) == Blank;
    BlankField(20);
    BlankField(6);
  }

  /** Italy, however spelt, leaves the nation field of an RT line blank. */
  lemma VeItaly(x: VfuAttachment, s: string)
    requires x.nation == Some(s) && IsItaly(Upper(s))
    ensures VeTail(Received, x)[14..35] == Cell(Spaces(20))
  {
    ItalyRendersBlank(s);
    Split3(Qty(x.declaredKg), Cell(FormatString(NormalizeNation(x.nation), 20, false)),
      Cell(FormatString(x.regulationCode, 6, false)));
  }

  /** getRecordVFU_RT: an RT-VEIC attachment. */
  function VfuRt(decl: Declarant, kind: Option<string>, cer: Code, attachmentNo: Num,
    fromPrivates: Option<bool>, party: Party, declaredKg: Num, nation: Option<string>,
    regulationCode: Option<string>): (r: string)
    ensures |r| == 235
  {
    Ve(Received, VfuAttachment(decl, kind, cer, attachmentNo, fromPrivates, party, declaredKg, nation, regulationCode))
  }

  /** An RT-VEIC line carries flag 1 exactly when the vehicles came from
      private citizens. */
  lemma VfuRtFlag(decl: Declarant, kind: Option<string>, cer: Code, attachmentNo: Num,
    fromPrivates: Option<bool>, party: Party, declaredKg: Num, nation: Option<string>,
    regulationCode: Option<string>)
    ensures VfuRt(decl, kind, cer, attachmentNo, fromPrivates, party, declaredKg, nation, regulationCode)[61..63] == "1;"
      <==> Truthy(fromPrivates)
  {
    hide VeKey, VeBody, VeFromPrivates, VeParty, VeTail, FormatBoolean, FormatString, FormatNumber, Upper;
    var x := VfuAttachment(decl, kind, cer, attachmentNo, fromPrivates, party, declaredKg, nation, regulationCode);
    VeLayout(Received, x);
    VeFlag(Received, x);
    SliceWithin(Ve(Received, x), 61, VeBody(Received, x), 0, 2);
  }

  /** The arguments the TE wrapper hands to the generic builder. */
  function TeAttachment(decl: Declarant, kind: Option<string>, cer: Code, attachmentNo: Num,
    taxCode: Option<string>, name: Option<string>, declaredKg: Num): VfuAttachment
  {
    VfuAttachment(decl, kind, cer, attachmentNo, Some(false),
      Party(taxCode, name, ZeroNum, ZeroNum, Blank, Blank, Blank), declaredKg, Blank, Blank)
  }

  /** getRecordVFU_TE: a TE-VEIC attachment. */
  function VfuTe(decl: Declarant, kind: Option<string>, cer: Code, attachmentNo: Num,
    taxCode: Option<string>, name: Option<string>, declaredKg: Num): (r: string)
    ensures |r| == 235
  {
    Ve(Transported, TeAttachment(decl, kind, cer, attachmentNo, taxCode, name, declaredKg))
  }

  /** The generic builder suppresses the counterpart of every non-RT
      attachment, so the transporter the TE wrapper passes never reaches
      the line: two TE lines differing only in the transporter are equal. */
  lemma VfuTeIgnoresTransporter(decl: Declarant, kind: Option<string>, cer: Code, attachmentNo: Num,
    t1: Option<string>, n1: Option<string>, t2: Option<string>, n2: Option<string>, declaredKg: Num)
    ensures VfuTe(decl, kind, cer, attachmentNo, t1, n1, declaredKg)
      == VfuTe(decl, kind, cer, attachmentNo, t2, n2, declaredKg)
  {
    var x1 := TeAttachment(decl, kind, cer, attachmentNo, t1, n1, declaredKg);
    var x2 := TeAttachment(decl, kind, cer, attachmentNo, t2, n2, declaredKg);
    assert VeParty(Transported, x1) == VeParty(Transported, x2);
    assert VeBody(Transported, x1) == VeBody(Transported, x2);
  }

  /** Everything after the key of a TE line is fixed by the quantity: flag
      0, a blank counterpart, no nation and no regulation code. */
  lemma VfuTeFixed(decl: Declarant, kind: Option<string>, cer: Code, attachmentNo: Num,
    taxCode: Option<string>, name: Option<string>, declaredKg: Num)
    ensures VfuTe(decl, kind, cer, attachmentNo, taxCode, name, declaredKg)[61..]
      == "0;" + (Cell(Spaces(16)) + Cell(Spaces(60)) + "000;000;" + Cell(Spaces(30)) + Cell(Spaces(6)) + Cell(Spaces(5)))
        + (Qty(declaredKg) + Cell(Spaces(20)) + Cell(Spaces(6)))
  {
    var x := TeAttachment(decl, kind, cer, attachmentNo, taxCode, name, declaredKg);
    VeLayout(Transported, x);
    TeBody(x);
  }

  lemma TeBody(x: VfuAttachment)
    ensures VeBody(Transported, x) == "0;" + (Cell(Spaces(16)) + Cell(Spaces(60)) + "000;000;" + Cell(Spaces(30))
      + Cell(Spaces(6)) + Cell(Spaces(5))) + (Qty(x.declaredKg) + Cell(Spaces(20)) + Cell(Spaces(6)))
  {
    VeAnonymous(Transported, x);
    VeTransportTail(x);
    VeFlag(Transported, x);
  }

  /** A DR-VEIC attachment: vehicles delivered to a third party, with the
      thirteen destinations R/D1 to R/D13 and the disposals D14 and D15. */
  datatype VfuDelivery = VfuDelivery(decl: Declarant, kind: Option<string>, cer: Code,
    attachmentNo: Num, party: Party, declaredKg: Num, nation: Option<string>,
    regulationCode: Option<string>, destinations: seq<Destination>, d14Kg: Num, d15Kg: Num)

  /** getRecordVFU_DR: the VF line. The counterpart is written in full. */
  function Vf(x: VfuDelivery): (r: string)
    requires |x.destinations| == 13
    ensures |r| == 466
  {
    VfKey(x) + PartyCells(x.party) + Shipment(x.declaredKg, x.nation, x.regulationCode)
      + Destinations(x.destinations, x.d14Kg, x.d15Kg)
  }

  function VfKey(x: VfuDelivery): (r: string)
    ensures |r| == 58
  {
    VfuKey("VF", x.decl, x.kind) + RawCerCell(x.cer) + Cell(FormatNumber(x.attachmentNo, 5, 0))
  }

  /** Where the VF line keeps each of its parts. */
  lemma VfLayout(x: VfuDelivery)
    requires |x.destinations| == 13
    ensures Vf(x)[..58] == VfKey(x) && Vf(x)[58..188] == PartyCells(x.party)
    ensures Vf(x)[188..230] == Shipment(x.declaredKg, x.nation, x.regulationCode)
    ensures Vf(x)[230..] == Destinations(x.destinations, x.d14Kg, x.d15Kg)
  {
    Parts4(VfKey(x), PartyCells(x.party), Shipment(x.declaredKg, x.nation, x.regulationCode),
      Destinations(x.destinations, x.d14Kg, x.d15Kg));
  }

  /** The i-th destination of the VF line. */
  lemma VfDestinationAt(x: VfuDelivery, i: nat)
    requires |x.destinations| == 13 && i < 13
    ensures Vf(x)[230 + 16 * i..246 + 16 * i] == Qty(x.destinations[i].kg)
      + Cell(FormatString(x.destinations[i].route, 1, false))
  {
    VfLayout(x);
    DestinationAt(Vf(x), 230, x.destinations, Qty(x.d14Kg) + Qty(x.d15Kg), i);
  }

  /** An MG-VEIC attachment: vehicles managed by the unit, with the twelve
      disposal operations D2-D4, D6-D11, D13-D15 and the thirteen recovery
      operations R1-R13 (kilograms). */
  datatype VfuMg = VfuMg(decl: Declarant, kind: Option<string>, cer: Code, attachmentNo: Num,
    byMayorOrder: Option<bool>, landfillClass: Num, landfillKg: Num,
    disposalKg: seq<Num>, recoveryKg: seq<Num>, stockRecoveryKg: Num, stockDisposalKg: Num)

  /** Head, sheet kind, waste code and attachment number: 45 + 7 + 6. */
  function MgKey(tag: string, x: VfuMg, stripped: bool): (r: string)
    requires |tag| == 2
    ensures |r| == 58
  {
    VfuKey(tag, x.decl, x.kind) + MgTail(x.cer, x.attachmentNo, stripped)
  }

  function VgPlant(x: VfuMg): (r: string)
    ensures |r| == 16
  {
    LandfillCells(x.byMayorOrder, x.landfillClass, x.landfillKg)
  }

  /** The VG line: the plant and the disposal operations. */
  function Vg(x: VfuMg, stripped: bool): (r: string)
    requires |x.disposalKg| == 12
    ensures |r| == 242
  {
    MgKey("VG", x, stripped) + VgPlant(x) + QtyList(x.disposalKg)
  }

  function VhQuantities(x: VfuMg): seq<Num>
  {
    x.recoveryKg + [x.stockRecoveryKg, x.stockDisposalKg]
  }

  /** The VH line: the recovery operations and the two stocks. */
  function Vh(x: VfuMg, stripped: bool): (r: string)
    requires |x.recoveryKg| == 13
    ensures |r| == 268
  {
    MgKey("VH", x, stripped) + QtyList(VhQuantities(x))
  }

  /** getRecordVFU_MG as written: the stripping step is guarded by the type
      of an identifier this function never declares, so the guard never
      holds and the waste code goes out as passed. */
  function MgAsWritten(x: VfuMg): (r: string)
    requires |x.disposalKg| == 12 && |x.recoveryKg| == 13
    ensures |r| == 242 + 2 + 268
    ensures r[..242] == Vg(x, false) && r[242..244] == CRLF && r[244..] == Vh(x, false)
  {
    Split3(Vg(x, false), CRLF, Vh(x, false));
    Vg(x, false) + CRLF + Vh(x, false)
  }

  /** getRecordVFU_MG as intended: the VG and VH lines, with the waste code
      stripped of separators as in the other sections, joined by CR LF. */
  function Mg(x: VfuMg): (r: string)
    requires |x.disposalKg| == 12 && |x.recoveryKg| == 13
    ensures |r| == 242 + 2 + 268
    ensures r[..242] == Vg(x, true) && r[242..244] == CRLF && r[244..] == Vh(x, true)
  {
    Split3(Vg(x, true), CRLF, Vh(x, true));
    Vg(x, true) + CRLF + Vh(x, true)
  }

  lemma VgLayout(x: VfuMg, stripped: bool)
    requires |x.disposalKg| == 12
    ensures Vg(x, stripped)[..58] == MgKey("VG", x, stripped) && Vg(x, stripped)[58..74] == VgPlant(x)
    ensures Vg(x, stripped)[74..] == QtyList(x.disposalKg)
  {
    Split3(MgKey("VG", x, stripped), VgPlant(x), QtyList(x.disposalKg));
  }

  lemma VhLayout(x: VfuMg, stripped: bool)
    requires |x.recoveryKg| == 13
    ensures Vh(x, stripped)[..58] == MgKey("VH", x, stripped) && Vh(x, stripped)[58..] == QtyList(VhQuantities(x))
  {
    SliceRight(MgKey("VH", x, stripped), QtyList(VhQuantities(x)));
  }

  lemma MgKeyLayout(tag: string, x: VfuMg, stripped: bool)
    requires |tag| == 2
    ensures MgKey(tag, x, stripped)[..3] == tag + ";" && MgKey(tag, x, stripped)[45..52] == MgCerCell(x.cer, stripped)
  {
    var h, t := VfuKey(tag, x.decl, x.kind), MgTail(x.cer, x.attachmentNo, stripped);
    PrefixOf(h, t, 3);
    SliceRight(h, t);
    SliceWithin(h + t, 45, t[..7], 0, 7);
  }

  /** The two keys differ in their tag only. */
  lemma MgKeyRetag(x: VfuMg, stripped: bool)
    ensures MgKey("VG", x, stripped)[3..] == MgKey("VH", x, stripped)[3..]
  {
    VfuKeyUntagged("VG", x.decl, x.kind);
    VfuKeyUntagged("VH", x.decl, x.kind);
    SameAfterTag(VfuKey("VG", x.decl, x.kind), VfuKey("VH", x.decl, x.kind), MgTail(x.cer, x.attachmentNo, stripped));
  }

  /** The two lines of an MG attachment carry the same declarant, sheet
      kind, waste code and attachment number. */
  lemma MgSameKey(x: VfuMg, stripped: bool)
    requires |x.disposalKg| == 12 && |x.recoveryKg| == 13
    ensures Vg(x, stripped)[..3] == "VG;" && Vh(x, stripped)[..3] == "VH;"
    ensures Vg(x, stripped)[3..58] == Vh(x, stripped)[3..58]
  {
    hide FormatNumber, FormatString, Qty, QtyCells, MgTail, CerCell, RawCerCell;
    VgLayout(x, stripped);
    VhLayout(x, stripped);
    MgKeyLayout("VG", x, stripped);
    MgKeyLayout("VH", x, stripped);
    MgKeyRetag(x, stripped);
    SliceOfPrefix(Vg(x, stripped), 58, 0, 3);
    SliceOfPrefix(Vh(x, stripped), 58, 0, 3);
    SliceOfPrefix(Vg(x, stripped), 58, 3, 58);
    SliceOfPrefix(Vh(x, stripped), 58, 3, 58);
  }

  /** Where each MG line keeps its waste code. */
  lemma MgCerAt(x: VfuMg, stripped: bool)
    requires |x.disposalKg| == 12 && |x.recoveryKg| == 13
    ensures Vg(x, stripped)[45..52] == MgCerCell(x.cer, stripped) && Vh(x, stripped)[45..52] == MgCerCell(x.cer, stripped)
  {
    VgLayout(x, stripped);
    VhLayout(x, stripped);
    MgKeyLayout("VG", x, stripped);
    MgKeyLayout("VH", x, stripped);
    SliceOfPrefix(Vg(x, stripped), 58, 45, 52);
    SliceOfPrefix(Vh(x, stripped), 58, 45, 52);
  }

  /** In the intended lines a waste code written with separators is its six
      digits, on both lines. */
  lemma MgCerStripped(x: VfuMg, s: string)
    requires |x.disposalKg| == 12 && |x.recoveryKg| == 13
    requires x.cer == CodeText(s) && |KeepDigits(s)| == 6
    ensures Vg(x, true)[45..52] == KeepDigits(s) + ";" && Vh(x, true)[45..52] == KeepDigits(s) + ";"
  {
    MgCerAt(x, true);
    CerCellStripped(s);
  }

  /** As written, the code "16.01.04" is cut to "16.01." on both lines,
      where the intended lines carry "160104". */
  lemma MgAsWrittenKeepsSeparators(x: VfuMg)
    requires |x.disposalKg| == 12 && |x.recoveryKg| == 13 && x.cer == CodeText("16.01.04")
    ensures Vg(x, false)[45..52] == "16.01.;" && Vh(x, false)[45..52] == "16.01.;"
    ensures Vg(x, true)[45..52] == "160104;" && Vh(x, true)[45..52] == "160104;"
  {
    MgCerAt(x, false);
    MgCerAt(x, true);
    RawCerCellSeparated("16.01.04");
  }

  /** The landfilled quantity is written in tonnes: kilograms over 1000,
      exact to the kilogram and with no rescaling. */
  lemma VgLandfillTonnes(x: VfuMg, stripped: bool, kg: nat)
    requires |x.disposalKg| == 12 && x.landfillKg == Val(Decimal(kg, 0))
    ensures Vg(x, stripped)[62..74] == Cell(PadDigits(kg / 1000, 7) + "," + PadDigits(kg % 1000, 3))
  {
    hide FormatNumber, FormatString, Qty, QtyCells, MgTail, CerCell, RawCerCell;
    VgLayout(x, stripped);
    LandfillTonnes(x.byMayorOrder, x.landfillClass, kg);
    SliceWithin(Vg(x, stripped), 58, VgPlant(x), 4, 16);
  }

  /** The i-th disposal operation of the VG line. */
  lemma VgDisposalAt(x: VfuMg, stripped: bool, i: nat)
    requires |x.disposalKg| == 12 && i < 12
    ensures Vg(x, stripped)[74 + 14 * i..88 + 14 * i] == Qty(x.disposalKg[i])
  {
    VgLayout(x, stripped);
    QtyRunAt(Vg(x, stripped), 74, x.disposalKg, i);
  }

  /** The i-th recovery operation of the VH line, then the two stocks. */
  lemma VhRecoveryAt(x: VfuMg, stripped: bool, i: nat)
    requires |x.recoveryKg| == 13 && i < 15
    ensures Vh(x, stripped)[58 + 14 * i..72 + 14 * i]
      == Qty(if i < 13 then x.recoveryKg[i] else if i == 13 then x.stockRecoveryKg else x.stockDisposalKg)
  {
    VhLayout(x, stripped);
    QtyRunAt(Vh(x, stripped), 58, VhQuantities(x), i);
  }

  /** No builder of the section raises its length flag; the combined
      disposal and recovery line is checked as the source builds it. */
  lemma NoLengthFlag(vc: VfuSheet, vd: VfuDetail, k: Handover, ve: VfuAttachment, vf: VfuDelivery, vg: VfuMg)
    requires |vf.destinations| == 13 && |vg.disposalKg| == 12 && |vg.recoveryKg| == 13
    ensures !Report(Vc(vc), 225).lengthMismatch && !Report(Vd(vd), 69).lengthMismatch
    ensures !Report(Ve(k, ve), 235).lengthMismatch && !Report(Vf(vf), 466).lengthMismatch
    ensures !Report(MgAsWritten(vg), 242 + 2 + 268).lengthMismatch
  {
    hide *;
  }
}
