/** The secondary-materials section (export-mud/mat.js): the MA record and
    the wrappers that fill it for the RIF, VFU (AUT/FRA/ROT) and IMB
    sheets. */
module Mat {
  import opened Digits
  import opened Utils
  import opened Fields

  /** The 21 materials of an MA record, in line order. */
  const GreenCompost := 0
  const MixedCompost := 1
  const OtherSoilImprovers := 2
  const Digestate := 3
  const RecycledAggregates := 4
  const Glass := 5
  const IronSteel := 6
  const Aluminium := 7
  const Copper := 8
  const PaperBoard := 9
  const Plastic := 10
  const WoodCork := 11
  const SolidFuel := 12
  const Textile := 13
  const Leather := 14
  const Ceramics := 15
  const Sludge := 16
  const Fertilisers := 17
  const Wood := 18
  const Rubber := 19
  const Other := 20
  const MaterialCount := 21

  /** An MA record: the sheet it refers to (RIF, AUT, FRA, ROT, IMB, TRA),
      the WEEE category and the 21 quantities (kilograms). */
  datatype MatRecord = MatRecord(decl: Declarant, sheetKind: Option<string>, weeeCategory: Num,
    materialsKg: seq<Num>)

  /** Only a TRA record keeps its WEEE category. */
  predicate IsTra(kind: Option<string>)
  {
    kind == Some("TRA")
  }

  /** getRecordMAT: the MA line. */
  function Ma(x: MatRecord): (r: string)
    requires |x.materialsKg| == MaterialCount
    ensures |r| == 342
  {
    Head("MA", x.decl) + Cell(FormatString(x.sheetKind, 3, false)) + MaBody(x)
  }

  /** The category (0 unless the record is TRA) and the quantities. */
  function MaBody(x: MatRecord): (r: string)
    requires |x.materialsKg| == MaterialCount
    ensures |r| == 297
  {
    Cell(FormatNumber(if IsTra(x.sheetKind) then x.weeeCategory else ZeroNum, 2, 0)) + QtyList(x.materialsKg)
  }

  /** Where the MA line keeps its tag, sheet kind and body. */
  lemma MaLayout(x: MatRecord)
    requires |x.materialsKg| == MaterialCount
    ensures Ma(x)[..3] == "MA;"
    ensures Ma(x)[..41] == Head("MA", x.decl)
    ensures Ma(x)[41..45] == Cell(FormatString(x.sheetKind, 3, false))
    ensures Ma(x)[45..] == MaBody(x)
  {
    Split3(Head("MA", x.decl), Cell(FormatString(x.sheetKind, 3, false)), MaBody(x));
    assert Ma(x)[..3] == Ma(x)[..41][..3];
  }

  /** The WEEE category is written only for a TRA record; any other record
      reads 00, whatever category was passed. */
  lemma MaCategory(x: MatRecord)
    requires |x.materialsKg| == MaterialCount
    ensures IsTra(x.sheetKind) ==> MaBody(x)[..3] == Cell(FormatNumber(x.weeeCategory, 2, 0))
    ensures !IsTra(x.sheetKind) ==> MaBody(x)[..3] == "00;"
  {
    var c := Cell(FormatNumber(if IsTra(x.sheetKind) then x.weeeCategory else ZeroNum, 2, 0));
    PrefixOf(c, QtyList(x.materialsKg), 3);
    if !IsTra(x.sheetKind) {
      FormatZeroNumber(2);
    }
  }

  lemma FormatZeroNumber(w: nat)
    requires w >= 1
    ensures FormatNumber(ZeroNum, w, 0) == Zeros(w)
  {
    assert DivPow10(0, 0) == 0;
    FormatNumberWhole(ZeroNum, w);
    PadDigitsOfZero(w);
  }

  /** The i-th material's quantity. */
  lemma MaMaterialAt(x: MatRecord, i: nat)
    requires |x.materialsKg| == MaterialCount && i < MaterialCount
    ensures Ma(x)[48 + 14 * i..62 + 14 * i] == Qty(x.materialsKg[i])
  {
    MaLayout(x);
    MaBodyMaterials(x);
    QtyRunAt(Ma(x), 48, x.materialsKg, i);
  }

  lemma MaBodyMaterials(x: MatRecord)
    requires |x.materialsKg| == MaterialCount
    ensures MaBody(x)[3..] == QtyList(x.materialsKg)
  {
    SliceRight(Cell(FormatNumber(if IsTra(x.sheetKind) then x.weeeCategory else ZeroNum, 2, 0)),
      QtyList(x.materialsKg));
  }

  /** The sheet kind is upper-cased on output but compared as given: a
      lower-case "tra" is written TRA yet loses its WEEE category. */
  lemma MaLowerCaseTra(x: MatRecord)
    requires |x.materialsKg| == MaterialCount && x.sheetKind == Some("tra")
    ensures Ma(x)[41..45] == "TRA;"
    ensures MaBody(x)[..3] == "00;"
  {
    hide Ma, MaBody, Qty, QtyList, FormatNumber, Head;
    MaLayout(x);
    MaCategory(x);
    assert Upper("tra") == "TRA";
  }

  /** getRecordMAT_RIF: the twenty quantities of a RIF sheet; wood is not
      among them and is written as 0. */
  function MatRif(decl: Declarant, kg: seq<Num>): (r: string)
    requires |kg| == 20
    ensures |r| == 342
  {
    Ma(MatRecord(decl, Some("RIF"), ZeroNum, RifMaterials(kg)))
  }

  /** The RIF quantities in line order, with 0 for wood. */
  function RifMaterials(kg: seq<Num>): (r: seq<Num>)
    requires |kg| == 20
    ensures |r| == MaterialCount && r[Wood] == ZeroNum
    ensures forall i :: 0 <= i < Wood ==> r[i] == kg[i]
    ensures forall i :: Wood < i < MaterialCount ==> r[i] == kg[i - 1]
  {
    kg[..Wood] + [ZeroNum] + kg[Wood..]
  }

  /** In a RIF line the wood quantity is always zero and every declared
      quantity keeps its place, the ones after wood shifted by one. */
  lemma MatRifPlaces(decl: Declarant, kg: seq<Num>, i: nat)
    requires |kg| == 20 && i < 20
    ensures MatRif(decl, kg)[48 + 14 * Wood..62 + 14 * Wood] == ZeroQty
    ensures var j := if i < Wood then i else i + 1;
      MatRif(decl, kg)[48 + 14 * j..62 + 14 * j] == Qty(kg[i])
  {
    hide Qty, Ma, MaBody, FormatString, FormatNumber, QtyList;
    var x := MatRecord(decl, Some("RIF"), ZeroNum, RifMaterials(kg));
    MaMaterialAt(x, Wood);
    MaMaterialAt(x, if i < Wood then i else i + 1);
    QtyZero();
  }

  /** The materials a dismantling, shredding or scrapping sheet declares. */
  predicate VfuMaterial(i: nat)
  {
    i == Glass || i == IronSteel || i == Aluminium || i == Copper || i == Plastic || i == Textile
      || i == Rubber || i == Other
  }

  /** The quantities getRecordMAT_VFU hands on: its eight materials in
      their places, 0 everywhere else. */
  function VfuMaterials(glass: Num, ironSteel: Num, aluminium: Num, copper: Num, plastic: Num, textile: Num,
    rubber: Num, other: Num): (r: seq<Num>)
    ensures |r| == MaterialCount
    ensures r[Glass] == glass && r[IronSteel] == ironSteel && r[Aluminium] == aluminium
      && r[Copper] == copper && r[Plastic] == plastic && r[Textile] == textile
      && r[Rubber] == rubber && r[Other] == other
    ensures forall i :: 0 <= i < MaterialCount && !VfuMaterial(i) ==> r[i] == ZeroNum
  {
    var z := ZeroNum;
    [z, z, z, z, z, glass, ironSteel, aluminium, copper, z, plastic, z, z, textile, z, z, z, z, z, rubber, other]
  }

  /** The three kinds of end-of-life vehicle sheet. */
  datatype VfuSheet = AUT | FRA | ROT

  function VfuSheetTag(k: VfuSheet): (r: string)
    ensures |r| == 3
  {
    match k
    case AUT => "AUT"
    case FRA => "FRA"
    case ROT => "ROT"
  }

  /** getRecordMAT_VFU, reached through getRecordMAT_AUT, _FRA and _ROT. */
  function MatVfu(decl: Declarant, k: VfuSheet, glass: Num, ironSteel: Num, aluminium: Num, copper: Num,
    plastic: Num, textile: Num, rubber: Num, other: Num): (r: string)
    ensures |r| == 342
  {
    Ma(MatRecord(decl, Some(VfuSheetTag(k)), ZeroNum,
      VfuMaterials(glass, ironSteel, aluminium, copper, plastic, textile, rubber, other)))
  }

  /** The AUT, FRA and ROT lines for the same quantities differ only in
      the sheet kind. */
  lemma MatVfuKindsDiffer(decl: Declarant, k1: VfuSheet, k2: VfuSheet, glass: Num, ironSteel: Num,
    aluminium: Num, copper: Num, plastic: Num, textile: Num, rubber: Num, other: Num)
    ensures var r1 := MatVfu(decl, k1, glass, ironSteel, aluminium, copper, plastic, textile, rubber, other);
      var r2 := MatVfu(decl, k2, glass, ironSteel, aluminium, copper, plastic, textile, rubber, other);
      r1[..41] == r2[..41] && r1[41..45] == VfuSheetTag(k1) + ";" && r2[41..45] == VfuSheetTag(k2) + ";"
      && r1[45..] == r2[45..]
  {
    var q := VfuMaterials(glass, ironSteel, aluminium, copper, plastic, textile, rubber, other);
    var x1 := MatRecord(decl, Some(VfuSheetTag(k1)), ZeroNum, q);
    var x2 := MatRecord(decl, Some(VfuSheetTag(k2)), ZeroNum, q);
    MaLayout(x1);
    MaLayout(x2);
    SheetKindCell(k1);
    SheetKindCell(k2);
    SameBody(x1, x2);
  }

  lemma SheetKindCell(k: VfuSheet)
    ensures Cell(FormatString(Some(VfuSheetTag(k)), 3, false)) == VfuSheetTag(k) + ";"
  {
    assert Upper(VfuSheetTag(k)) == VfuSheetTag(k);
  }

  /** The body does not depend on which non-TRA kind the record has. */
  lemma SameBody(x1: MatRecord, x2: MatRecord)
    requires |x1.materialsKg| == MaterialCount && x1.materialsKg == x2.materialsKg
    requires !IsTra(x1.sheetKind) && !IsTra(x2.sheetKind)
    ensures MaBody(x1) == MaBody(x2)
  {
  }

  /** A material a vehicle sheet does not declare reads zero with unit 1. */
  lemma MatVfuZero(decl: Declarant, k: VfuSheet, glass: Num, ironSteel: Num, aluminium: Num, copper: Num,
    plastic: Num, textile: Num, rubber: Num, other: Num, i: nat)
    requires i < MaterialCount && !VfuMaterial(i)
    ensures MatVfu(decl, k, glass, ironSteel, aluminium, copper, plastic, textile, rubber, other)[48 + 14 * i..62 + 14 * i]
      == ZeroQty
  {
    var q := VfuMaterials(glass, ironSteel, aluminium, copper, plastic, textile, rubber, other);
    MaMaterialAt(MatRecord(decl, Some(VfuSheetTag(k)), ZeroNum, q), i);
    QtyZero();
  }

  /** The materials a packaging sheet declares. */
  predicate ImbMaterial(i: nat)
  {
    i == Glass || i == IronSteel || i == Aluminium || i == PaperBoard || i == Plastic || i == Wood
      || i == Other
  }

  /** The quantities getRecordMAT_IMB hands on. */
  function ImbMaterials(glass: Num, ironSteel: Num, aluminium: Num, paper: Num, plastic: Num, wood: Num,
    other: Num): (r: seq<Num>)
    ensures |r| == MaterialCount
    ensures r[Glass] == glass && r[IronSteel] == ironSteel && r[Aluminium] == aluminium
      && r[PaperBoard] == paper && r[Plastic] == plastic && r[Wood] == wood && r[Other] == other
    ensures forall i :: 0 <= i < MaterialCount && !ImbMaterial(i) ==> r[i] == ZeroNum
  {
    var z := ZeroNum;
    [z, z, z, z, z, glass, ironSteel, aluminium, z, paper, plastic, z, z, z, z, z, z, z, wood, z, other]
  }

  /** getRecordMAT_IMB: the packaging sheet's materials. */
  function MatImb(decl: Declarant, glass: Num, ironSteel: Num, aluminium: Num, paper: Num, plastic: Num,
    wood: Num, other: Num): (r: string)
    ensures |r| == 342
  {
    Ma(MatRecord(decl, Some("IMB"), ZeroNum, ImbMaterials(glass, ironSteel, aluminium, paper, plastic, wood, other)))
  }

  /** A material a packaging sheet does not declare reads zero with unit 1. */
  lemma MatImbZero(decl: Declarant, glass: Num, ironSteel: Num, aluminium: Num, paper: Num, plastic: Num,
    wood: Num, other: Num, i: nat)
    requires i < MaterialCount && !ImbMaterial(i)
    ensures MatImb(decl, glass, ironSteel, aluminium, paper, plastic, wood, other)[48 + 14 * i..62 + 14 * i]
      == ZeroQty
  {
    var q := ImbMaterials(glass, ironSteel, aluminium, paper, plastic, wood, other);
    MaMaterialAt(MatRecord(decl, Some("IMB"), ZeroNum, q), i);
    QtyZero();
  }

  /** The builder never raises its length flag. */
  lemma NoLengthFlag(ma: MatRecord)
    requires |ma.materialsKg| == MaterialCount
    ensures !Report(Ma(ma), 342).lengthMismatch
  {
    hide *;
  }
}
