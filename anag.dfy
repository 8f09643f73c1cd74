/** The registry section (export-mud/anag.js): the SA-1 sheet with the
    company and its local unit (record AA) and the SA-AUT sheet with the
    authorisations and the plant summary (record AB). */
module Anag {
  import opened Digits
  import opened Utils
  import opened Fields

  /** An address with its telephone: ISTAT province and comune, street,
      house number, postcode, dialling prefix and number. */
  datatype Address = Address(province: Num, comune: Num, street: Option<string>,
    houseNumber: Option<string>, postcode: Option<string>, phonePrefix: Option<string>, phoneNumber: Option<string>)

  /** 4 + 4 + 31 + 7 + 6 + 6 + 11 characters. */
  function AddressCells(a: Address): (r: string)
    ensures |r| == 69
  {
    Cell(FormatNumber(a.province, 3, 0)) + Cell(FormatNumber(a.comune, 3, 0))
      + Cell(FormatString(a.street, 30, false)) + Cell(FormatString(a.houseNumber, 6, false))
      + Cell(FormatString(a.postcode, 5, false)) + Cell(FormatString(a.phonePrefix, 5, false))
      + Cell(FormatString(a.phoneNumber, 10, false))
  }

  /** The SA-1 sheet: the company, its local unit and its registered seat,
      the legal representative and the compilation data. */
  datatype Company = Company(decl: Declarant, activityCode: Code, reaNo: Num, employees: Num,
    name: Option<string>, unit: Address, seat: Address,
    representativeSurname: Option<string>, representativeName: Option<string>,
    compiledOn: Option<DateTime>, monthsActive: Num, cancelsPrevious: Option<bool>,
    replacedOn: Option<DateTime>)

  /** The activity code (a string loses its dots and letters), REA number,
      employees and company name. */
  function AaCompany(x: Company): (r: string)
    ensures |r| == 84
  {
    CerCell(x.activityCode) + Cell(FormatNumber(x.reaNo, 9, 0)) + Cell(FormatNumber(x.employees, 5, 0))
      + Cell(FormatString(x.name, 60, false))
  }

  /** The representative, the compilation date, the months of activity,
      the cancellation flag and the date of the replaced declaration. */
  function AaSignature(x: Company): (r: string)
    ensures |r| == 75
  {
    Cell(FormatString(x.representativeSurname, 25, false)) + Cell(FormatString(x.representativeName, 25, false))
      + Cell(FormatDate(x.compiledOn, YYYYMMDD)) + Cell(FormatNumber(x.monthsActive, 2, 0))
      + FlagCell(x.cancelsPrevious) + Cell(FormatDate(x.replacedOn, YYYYMMDD))
  }

  /** getRecordSA1: the AA line, of the same length whether the dates are
      given or not. */
  function Aa(x: Company): (r: string)
    ensures |r| == 338
  {
    Head("AA", x.decl) + AaCompany(x) + AddressCells(x.unit) + AddressCells(x.seat) + AaSignature(x)
  }

  /** Where the AA line keeps each of its parts. */
  lemma AaLayout(x: Company)
    ensures Aa(x)[..3] == "AA;" && Aa(x)[41..125] == AaCompany(x)
    ensures Aa(x)[125..194] == AddressCells(x.unit) && Aa(x)[194..263] == AddressCells(x.seat)
    ensures Aa(x)[263..] == AaSignature(x)
  {
    Parts5(Head("AA", x.decl), AaCompany(x), AddressCells(x.unit), AddressCells(x.seat), AaSignature(x));
  }

  /** The activity code opens the company part. */
  lemma AaActivityAt(x: Company)
    ensures Aa(x)[41..48] == CerCell(x.activityCode)
  {
    hide *;
    AaLayout(x);
    AaCompanyStart(x);
    SliceWithin(Aa(x), 41, AaCompany(x), 0, 7);
  }

  lemma AaCompanyStart(x: Company)
    ensures AaCompany(x)[..7] == CerCell(x.activityCode)
  {
    hide FormatNumber, FormatString, CerCell;
    PrefixOf(CerCell(x.activityCode), Cell(FormatNumber(x.reaNo, 9, 0)) + Cell(FormatNumber(x.employees, 5, 0))
      + Cell(FormatString(x.name, 60, false)), 7);
    assert AaCompany(x) == CerCell(x.activityCode) + (Cell(FormatNumber(x.reaNo, 9, 0))
      + Cell(FormatNumber(x.employees, 5, 0)) + Cell(FormatString(x.name, 60, false)));
  }

  /** A textual activity code of six digits once its separators are gone
      is written as those digits. */
  lemma AaActivityStripped(x: Company, s: string)
    requires x.activityCode == CodeText(s) && |KeepDigits(s)| == 6
    ensures Aa(x)[41..48] == KeepDigits(s) + ";"
  {
    AaActivityAt(x);
    CerCellStripped(s);
  }

  /** The ATECO code "38.21.09" is written "382109". */
  lemma AaActivityExample(x: Company)
    requires x.activityCode == CodeText("38.21.09")
    ensures Aa(x)[41..48] == "382109;"
  {
    hide *;
    KeepDigitsExample();
    AaActivityStripped(x, "38.21.09");
  }

  /** Where the signature part keeps its two dates and its flag. */
  lemma AaSignatureLayout(x: Company)
    ensures AaSignature(x)[52..61] == Cell(FormatDate(x.compiledOn, YYYYMMDD))
    ensures AaSignature(x)[64..66] == FlagCell(x.cancelsPrevious)
    ensures AaSignature(x)[66..] == Cell(FormatDate(x.replacedOn, YYYYMMDD))
  {
    var a := Cell(FormatString(x.representativeSurname, 25, false)) + Cell(FormatString(x.representativeName, 25, false));
    Parts5(a, Cell(FormatDate(x.compiledOn, YYYYMMDD)), Cell(FormatNumber(x.monthsActive, 2, 0)),
      FlagCell(x.cancelsPrevious), Cell(FormatDate(x.replacedOn, YYYYMMDD)));
  }

  /** The compilation date, the cancellation flag and the replaced date. */
  lemma AaDatesAt(x: Company)
    ensures Aa(x)[315..324] == Cell(FormatDate(x.compiledOn, YYYYMMDD))
    ensures Aa(x)[327..329] == FlagCell(x.cancelsPrevious)
    ensures Aa(x)[329..] == Cell(FormatDate(x.replacedOn, YYYYMMDD))
  {
    AaLayout(x);
    AaSignatureLayout(x);
    SliceOfSuffix(Aa(x), 263, 52, 61);
    SliceOfSuffix(Aa(x), 263, 64, 66);
  }

  /** A missing date is eight blanks, so the line keeps its length. */
  lemma AaMissingDates(x: Company)
    requires x.compiledOn.None? && x.replacedOn.None?
    ensures Aa(x)[315..324] == Cell(Spaces(8)) && Aa(x)[329..] == Cell(Spaces(8))
  {
    AaDatesAt(x);
  }

  /** The cancellation flag reads 1 exactly for a true flag. */
  lemma AaCancelFlag(x: Company)
    ensures Aa(x)[327..329] == "1;" <==> Truthy(x.cancelsPrevious)
  {
    AaDatesAt(x);
    assert "0;"[0] != "1;"[0];
  }

  /** JavaScript's String() of a value, as the + operator uses it when one
      side is a string; a missing value is taken to be null. */
  function JsText(v: Num): (r: string)
    ensures v.Text? ==> r == v.s
    ensures v.Val? ==> r == JsString(v.d)
  {
    match v
    case Null => "null"
    case NaN => "NaN"
    case Val(d) => JsString(d)
    case Text(s) => s
  }

  /** The exact sum of two decimals. */
  function AddDecimal(a: Decimal, b: Decimal): Decimal
  {
    Decimal(MulPow10(a.units, b.scale) + MulPow10(b.units, a.scale), a.scale + b.scale)
  }

  /** AddDecimal is exact: scaled to a common denominator, the sum's units
      are the sum of the operands' units. */
  lemma AddDecimalExact(a: Decimal, b: Decimal)
    ensures var r := AddDecimal(a, b);
      r.units * Pow10(a.scale) * Pow10(b.scale)
        == (a.units * Pow10(b.scale) + b.units * Pow10(a.scale)) * Pow10(r.scale)
  {
    Pow10Add(a.scale, b.scale);
    MulPow10Value(a.units, b.scale);
    MulPow10Value(b.units, a.scale);
  }

  /** The + operator: strings concatenate, numbers and null (as 0) add,
      and anything else gives NaN. */
  function JsPlus(a: Num, b: Num): (r: Num)
    ensures a.Text? || b.Text? ==> r == Text(JsText(a) + JsText(b))
    ensures !a.Text? && !b.Text? && (a.NaN? || b.NaN?) ==> r == NaN
    ensures !a.Text? && !b.Text? && Coerce(a).Some? && Coerce(b).Some? ==>
      r == Val(AddDecimal(Coerce(a).value, Coerce(b).value))
  {
    if a.Text? || b.Text? then Text(JsText(a) + JsText(b))
    else match (Coerce(a), Coerce(b))
      case (Some(x), Some(y)) => Val(AddDecimal(x, y))
      case _ => NaN
  }

  /** Whole numbers add as integers. */
  lemma JsPlusWhole(h: nat, n: nat)
    ensures JsPlus(Val(Decimal(h, 0)), Val(Decimal(n, 0))) == Val(Decimal(h + n, 0))
  {
    assert Pow10(0) == 1;
  }

  /** A treatment plant: whether it is run and its authorised yearly
      capacity for hazardous and non-hazardous waste (tonnes). */
  datatype Plant = Plant(active: Option<bool>, hazardous: Num, nonHazardous: Num)

  /** The flag, the total capacity the exporter computes as the sum of the
      two parts, and the two parts. */
  function PlantCells(p: Plant): (r: string)
    ensures |r| == 32
  {
    FlagCell(p.active) + Cell(FormatNumber(JsPlus(p.hazardous, p.nonHazardous), 9, 0))
      + Cell(FormatNumber(p.hazardous, 9, 0)) + Cell(FormatNumber(p.nonHazardous, 9, 0))
  }

  /** A landfill: its class (0, 6, 7 or 8) and the tonnes it received. */
  datatype Landfill = Landfill(landfillClass: Num, tonnes: Num)

  function LandfillSite(l: Landfill): (r: string)
    ensures |r| == 12
  {
    Cell(FormatNumber(l.landfillClass, 1, 0)) + Cell(FormatNumber(l.tonnes, 9, 0))
  }

  function LandfillSites(ls: seq<Landfill>): (r: string)
    ensures |r| == 12 * |ls|
  {
    var ss := seq(|ls|, j requires 0 <= j < |ls| => LandfillSite(ls[j]));
    ConcatWidth(ss, 12);
    Concat(ss)
  }

  /** The SA-AUT sheet: how many sheets of each kind, the authorisations
      and certifications, the two incineration plants and five landfills. */
  datatype Authorisations = Authorisations(decl: Declarant, rifCount: Num, intCount: Num,
    isAut: Option<bool>, isRot: Option<bool>, isFra: Option<bool>, traRaeeCount: Num, crRaeeCount: Num,
    isImb: Option<bool>, vfuAuth208: Option<DateTime>, vfuAuth216: Option<DateTime>,
    raeeAuth208: Option<DateTime>, raeeAuth216: Option<DateTime>, emasOn: Option<DateTime>,
    emasNo: Option<string>, isoOn: Option<DateTime>, incineration: Plant, coIncineration: Plant,
    landfills: seq<Landfill>)

  function AbCounts(x: Authorisations): (r: string)
    ensures |r| == 28
  {
    Cell(FormatNumber(x.rifCount, 6, 0)) + Cell(FormatNumber(x.intCount, 6, 0)) + FlagCell(x.isAut)
      + FlagCell(x.isRot) + FlagCell(x.isFra) + Cell(FormatNumber(x.traRaeeCount, 2, 0))
      + Cell(FormatNumber(x.crRaeeCount, 2, 0)) + FlagCell(x.isImb)
  }

  function AbCertificates(x: Authorisations): (r: string)
    ensures |r| == 64
  {
    Cell(FormatDate(x.vfuAuth208, YYYYMMDD)) + Cell(FormatDate(x.vfuAuth216, YYYYMMDD))
      + Cell(FormatDate(x.raeeAuth208, YYYYMMDD)) + Cell(FormatDate(x.raeeAuth216, YYYYMMDD))
      + Cell(FormatDate(x.emasOn, YYYYMMDD)) + Cell(FormatString(x.emasNo, 9, false))
      + Cell(FormatDate(x.isoOn, YYYYMMDD))
  }

  /** getRecordSA_AUT: the AB line. */
  function Ab(x: Authorisations): (r: string)
    requires |x.landfills| == 5
    ensures |r| == 257
  {
    Head("AB", x.decl) + AbCounts(x) + AbCertificates(x) + PlantCells(x.incineration)
      + PlantCells(x.coIncineration) + LandfillSites(x.landfills)
  }

  /** Where the AB line keeps each of its parts. */
  lemma AbLayout(x: Authorisations)
    requires |x.landfills| == 5
    ensures Ab(x)[..3] == "AB;" && Ab(x)[41..69] == AbCounts(x) && Ab(x)[69..133] == AbCertificates(x)
    ensures Ab(x)[133..165] == PlantCells(x.incineration) && Ab(x)[165..197] == PlantCells(x.coIncineration)
    ensures Ab(x)[197..] == LandfillSites(x.landfills)
  {
    hide AbCounts, AbCertificates, PlantCells, LandfillSites, FormatNumber, FormatString;
    Parts6(Head("AB", x.decl), AbCounts(x), AbCertificates(x), PlantCells(x.incineration),
      PlantCells(x.coIncineration), LandfillSites(x.landfills));
  }

  /** Where a plant keeps its total and its two parts. */
  lemma PlantLayout(p: Plant)
    ensures PlantCells(p)[2..12] == Cell(FormatNumber(JsPlus(p.hazardous, p.nonHazardous), 9, 0))
    ensures PlantCells(p)[12..22] == Cell(FormatNumber(p.hazardous, 9, 0))
    ensures PlantCells(p)[22..] == Cell(FormatNumber(p.nonHazardous, 9, 0))
  {
    Parts4(FlagCell(p.active), Cell(FormatNumber(JsPlus(p.hazardous, p.nonHazardous), 9, 0)),
      Cell(FormatNumber(p.hazardous, 9, 0)), Cell(FormatNumber(p.nonHazardous, 9, 0)));
  }

  /** A whole number of tonnes is written as its nine low-order digits. */
  lemma FormatTonnes(t: nat)
    ensures FormatNumber(Val(Decimal(t, 0)), 9, 0) == PadDigits(t, 9)
  {
    FormatNumberWhole(Val(Decimal(t, 0)), 9);
    assert Pow10(0) == 1;
    assert ModPow10(t, 0) == 0 && DivPow10(t, 0) == t;
  }

  /** With whole capacities the total field carries the sum of the two
      parts, and it reads back as the sum of the parts as written when the
      sum fits the field. */
  lemma PlantTotal(p: Plant, h: nat, n: nat)
    requires p.hazardous == Val(Decimal(h, 0)) && p.nonHazardous == Val(Decimal(n, 0))
    ensures PlantCells(p)[2..12] == Cell(PadDigits(h + n, 9))
    ensures PlantCells(p)[12..22] == Cell(PadDigits(h, 9)) && PlantCells(p)[22..] == Cell(PadDigits(n, 9))
    ensures h + n < Pow10(9) ==> ParseDigits(PadDigits(h + n, 9)) == ParseDigits(PadDigits(h, 9)) + ParseDigits(PadDigits(n, 9))
  {
    hide *;
    PlantLayout(p);
    JsPlusWhole(h, n);
    FormatTonnes(h + n);
    FormatTonnes(h);
    FormatTonnes(n);
    if h + n < Pow10(9) {
      ParsePadDigits(h + n, 9);
      ParsePadDigits(h, 9);
      ParsePadDigits(n, 9);
      ModUnique(h + n, Pow10(9), 0, h + n);
      ModUnique(h, Pow10(9), 0, h);
      ModUnique(n, Pow10(9), 0, n);
    }
  }

  /** Capacities passed as strings are joined, not added: "5" and "3"
      give a total of 53. */
  lemma PlantTextCapacities(p: Plant)
    requires p.hazardous == Text("5") && p.nonHazardous == Text("3")
    ensures PlantCells(p)[2..12] == Cell(PadDigits(53, 9))
  {
    PlantLayout(p);
    assert JsPlus(p.hazardous, p.nonHazardous) == Text("53");
    ParseFiftyThree();
    FormatNumberWhole(Text("53"), 9);
    assert Pow10(0) == 1;
    assert ModPow10(53, 0) == 0 && DivPow10(53, 0) == 53;
  }

  lemma ParseFiftyThree()
    ensures AllDigits("53") && ParseDigits("53") == 53
  {
    assert "53"[..1] == "5" && "5"[..0] == "";
    assert IsDigit('5') && IsDigit('3');
    assert DigitValue('5') == 5 && DigitValue('3') == 3;
  }

  /** Missing capacities add up to 0. */
  lemma PlantNoCapacity(p: Plant)
    requires p.hazardous == Null && p.nonHazardous == Null
    ensures PlantCells(p)[2..12] == "000000000;"
  {
    hide PlantCells, PadDigits, FormatNumber, MulPow10;
    PlantLayout(p);
    MulPow10Value(0, 0);
    FormatTonnes(0);
    PadDigitsOfZero(9);
    assert Zeros(9) == "000000000";
  }

  /** The two plants of the AB line. */
  lemma AbPlantsAt(x: Authorisations)
    requires |x.landfills| == 5
    ensures Ab(x)[135..145] == PlantCells(x.incineration)[2..12]
    ensures Ab(x)[167..177] == PlantCells(x.coIncineration)[2..12]
  {
    AbLayout(x);
    SliceWithin(Ab(x), 133, PlantCells(x.incineration), 2, 12);
    SliceWithin(Ab(x), 165, PlantCells(x.coIncineration), 2, 12);
  }

  /** The i-th landfill of the AB line. */
  lemma AbLandfillAt(x: Authorisations, i: nat)
    requires |x.landfills| == 5 && i < 5
    ensures Ab(x)[197 + 12 * i..209 + 12 * i] == LandfillSite(x.landfills[i])
  {
    hide LandfillSite, FormatNumber, FormatString;
    AbLayout(x);
    var ss := seq(5, j requires 0 <= j < 5 => LandfillSite(x.landfills[j]));
    ConcatAt(ss, 12, i);
    SliceOfSuffix(Ab(x), 197, 12 * i, 12 * i + 12);
  }

  /** Neither builder raises its length flag: each line has exactly the
      length the builder compares it with. */
  lemma NoLengthFlag(aa: Company, ab: Authorisations)
    requires |ab.landfills| == 5
    ensures !Report(Aa(aa), 338).lengthMismatch && !Report(Ab(ab), 257).lengthMismatch
  {
    hide *;
  }
}
