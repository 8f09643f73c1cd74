/** What the record builders share: the ';'-terminated cell, the header
    cells every record opens with, the quantity cells, the normalisation of
    waste codes and nations, and the length report handed to the callback. */
module Fields {
  import opened Digits
  import opened Utils

  /** A field followed by its ';' terminator. */
  function Cell(s: string): string
  {
    s + ";"
  }

  const CRLF := "\r\n"

  /** What the builders hand to the caller's callback: whether the line
      length differs from the record's fixed length, and the line. */
  datatype Reported = Reported(lengthMismatch: bool, line: string)

  function Report(line: string, width: nat): (r: Reported)
    ensures r.line == line
    ensures r.lengthMismatch <==> |line| != width
  {
    Reported(|line| != width, line)
  }

  /** The declaration year, tax code and local-unit code that open every
      record after its tag. */
  datatype Declarant = Declarant(year: Num, taxCode: Option<string>, unitCode: Option<string>)

  /** The tag and the three declarant cells: 3 + 5 + 17 + 16 characters. */
  function Head(tag: string, d: Declarant): (r: string)
    requires |tag| == 2
    ensures |r| == 41 && r[..3] == tag + ";" && r[3..] == DeclarantCells(d)
  {
    Cell(tag) + DeclarantCells(d)
  }

  function DeclarantCells(d: Declarant): (r: string)
    ensures |r| == 38
  {
    Cell(FormatNumber(d.year, 4, 0)) + Cell(FormatString(d.taxCode, 16, false))
      + Cell(FormatString(d.unitCode, 15, false))
  }

  /** The key of a sheet record: the head, the sheet number and the waste
      code, 41 + 5 + 7 characters. */
  function SheetKey(tag: string, d: Declarant, sheetNo: Num, cer: Code): (r: string)
    requires |tag| == 2
    ensures |r| == 53 && r[..3] == tag + ";" && r[46..] == CerCell(cer)
  {
    var h, n, c := Head(tag, d), Cell(FormatNumber(sheetNo, 4, 0)), CerCell(cer);
    PrefixOf(h, n + c, 3);
    assert h + n + c == h + (n + c);
    SliceRight(h + n, c);
    h + n + c
  }

  /** A line opening with a sheet key carries its tag and waste code. */
  lemma OpensWithKey(s: string, tag: string, d: Declarant, sheetNo: Num, cer: Code)
    requires |tag| == 2 && 53 <= |s| && s[..53] == SheetKey(tag, d, sheetNo, cer)
    ensures s[..3] == tag + ";" && s[46..53] == CerCell(cer)
  {
    assert s[..3] == s[..53][..3];
    assert s[46..53] == s[..53][46..];
  }

  /** Two keys differ in their tag only. */
  lemma SheetKeyRetag(t1: string, t2: string, d: Declarant, sheetNo: Num, cer: Code)
    requires |t1| == 2 && |t2| == 2
    ensures SheetKey(t1, d, sheetNo, cer)[3..] == SheetKey(t2, d, sheetNo, cer)[3..]
  {
    SheetKeyUntagged(t1, d, sheetNo, cer);
    SheetKeyUntagged(t2, d, sheetNo, cer);
  }

  lemma SheetKeyUntagged(t: string, d: Declarant, sheetNo: Num, cer: Code)
    requires |t| == 2
    ensures SheetKey(t, d, sheetNo, cer)[3..] == DeclarantCells(d) + Cell(FormatNumber(sheetNo, 4, 0)) + CerCell(cer)
  {
    hide FormatNumber, CerCell, DeclarantCells;
    var rest := Cell(FormatNumber(sheetNo, 4, 0)) + CerCell(cer);
    assert SheetKey(t, d, sheetNo, cer) == Cell(t) + (DeclarantCells(d) + rest);
    SliceRight(Cell(t), DeclarantCells(d) + rest);
  }

  /** The two cells of a quantity: the value with three decimals and the
      unit code, 11 + 1 + 1 + 1 characters. */
  function QtyCells(m: Measure): (r: string)
    ensures |r| == 14
  {
    Cell(FormatNumber(m.value, 7, 3)) + Cell(FormatNumber(m.unit, 1, 0))
  }

  /** A quantity rescaled with the default threshold. */
  function Qty(kg: Num): (r: string)
    ensures |r| == 14
  {
    QtyCells(ToMeasure(kg, None))
  }

  /** A value that flows to a string field: JavaScript's truthiness of the
      flags the builders test. */
  predicate Truthy(b: Option<bool>)
  {
    b == Some(true)
  }

  /** A waste (CER) or activity (ISTAT) code as the caller may pass it:
      absent, a string, or a number. */
  datatype Code = NoCode | CodeText(s: string) | CodeNumber(n: nat)

  /** The text formattaStringa renders for a code (a number through its
      toString). */
  function CodeString(c: Code): (r: Option<string>)
    ensures c.NoCode? <==> r.None?
    ensures c.CodeText? ==> r == Some(c.s)
    ensures c.CodeNumber? ==> r.Some? && AllDigits(r.value)
  {
    match c
    case NoCode => None
    case CodeText(s) => Some(s)
    case CodeNumber(n) => Some(NatDigits(n))
  }

  /** s.replace(/\D+/g, ''): s without its non-digit characters. */
  function KeepDigits(s: string): (r: string)
    ensures AllDigits(r) && |r| <= |s|
  {
    if s == [] then []
    else (if IsDigit(s[0]) then [s[0]] else []) + KeepDigits(s[1..])
  }

  /** Stripping distributes over concatenation: every character is kept or
      dropped on its own. */
  lemma {:induction false} KeepDigitsAppend(a: string, b: string)
    ensures KeepDigits(a + b) == KeepDigits(a) + KeepDigits(b)
  {
    if a != [] {
      assert (a + b)[0] == a[0] && (a + b)[1..] == a[1..] + b;
      var h := if IsDigit(a[0]) then [a[0]] else [];
      assert KeepDigits(a + b) == h + KeepDigits(a[1..] + b);
      KeepDigitsAppend(a[1..], b);
      assert KeepDigits(a) == h + KeepDigits(a[1..]);
    } else {
      assert a + b == b;
    }
  }

  /** A string of digits is left alone, so stripping is idempotent. */
  lemma {:induction false} KeepDigitsOfDigits(s: string)
    requires AllDigits(s)
    ensures KeepDigits(s) == s
  {
    if s != [] {
      KeepDigitsOfDigits(s[1..]);
    }
  }

  lemma KeepDigitsIdempotent(s: string)
    ensures KeepDigits(KeepDigits(s)) == KeepDigits(s)
  {
    KeepDigitsOfDigits(KeepDigits(s));
  }

  /** The guard `code && typeof(code) === 'string'` followed by the digit
      stripping: a non-empty string code loses its non-digits; an empty
      string, a number or no code is unchanged. */
  function StripCode(c: Code): (r: Code)
    ensures c.CodeText? ==> r == CodeText(KeepDigits(c.s))
    ensures !c.CodeText? ==> r == c
  {
    match c
    case CodeText(s) => if s != "" then CodeText(KeepDigits(s)) else c
    case _ => c
  }

  lemma KeepDigitsExample()
    ensures KeepDigits("38.21.09") == "382109"
  {
    assert "38.21.09" == "38." + "21." + "09";
    KeepDigitsAppend("38." + "21.", "09");
    KeepDigitsAppend("38.", "21.");
    assert KeepDigits("38.") == "38";
    assert KeepDigits("21.") == "21";
    assert KeepDigits("09") == "09";
  }

  /** The spellings of Italy that stand for "no foreign nation". */
  predicate IsItaly(s: string)
  {
    s == "IT" || s == "ITALIA" || s == "ITALY"
  }

  /** The nation normalisation: a string is upper-cased and the spellings
      of Italy become null. */
  function NormalizeNation(n: Option<string>): (r: Option<string>)
    ensures r.None? <==> (n.None? || IsItaly(Upper(n.value)))
    ensures r.Some? ==> r.value == Upper(n.value)
  {
    match n
    case None => None
    case Some(s) => if IsItaly(Upper(s)) then None else Some(Upper(s))
  }

  lemma {:induction false} UpperIdempotent(s: string)
    ensures Upper(Upper(s)) == Upper(s)
  {
    if s != [] {
      UpperAppend(UpperChars(s[0]), Upper(s[1..]));
      UpperCharsFixed(s[0]);
      UpperIdempotent(s[1..]);
    }
  }

  /** Normalising a normalised nation changes nothing. */
  lemma NormalizeNationIdempotent(n: Option<string>)
    ensures NormalizeNation(NormalizeNation(n)) == NormalizeNation(n)
  {
    if n.Some? {
      UpperIdempotent(n.value);
    }
  }

  /** Every spelling of Italy, in any letter case, renders as a blank
      20-character nation field. */
  lemma ItalyRendersBlank(s: string)
    requires IsItaly(Upper(s))
    ensures FormatString(NormalizeNation(Some(s)), 20, false) == Spaces(20)
  {
  }

  /** A nation is "set" for the builders' tests when it is a non-empty
      string after normalisation. */
  predicate HasNation(n: Option<string>)
  {
    n.Some? && n.value != ""
  }

  /** JavaScript's v / 1000 on a formatter input: null is 0, NaN and
      non-numeric text stay NaN. */
  function DivThousand(v: Num): (r: Num)
    ensures Coerce(v).None? ==> r == NaN
    ensures Coerce(v).Some? ==> r == Val(Thousandth(Coerce(v).value))
  {
    match Coerce(v)
    case Some(d) => Val(Thousandth(d))
    case None => NaN
  }

  /** How a suppressed quantity reads: zero with unit 0. */
  const SuppressedQty := "0000000,000;0;"

  /** How a zero or missing quantity reads: zero with unit 1. */
  const ZeroQty := "0000000,000;1;"

  /** A suppressed quantity renders as zero with unit 0. */
  lemma QtySuppressed()
    ensures QtyCells(Suppressed) == SuppressedQty
  {
    hide FormatNumber;
    FormatMissingNumber(Null, 7, 3);
    FormatMissingNumber(Null, 1, 0);
  }

  /** A zero quantity still goes through the rescaling and so keeps unit 1. */
  lemma QtyZero()
    ensures Qty(Val(Decimal(0, 0))) == ZeroQty
  {
    hide FormatNumber;
    var m := ToMeasure(Val(Decimal(0, 0)), None);
    assert m == Measure(Val(Decimal(0, 0)), Text("1"));
    FormatThousandthsOfZero();
    FormatTextOne();
  }

  /** Three suppressed quantities. */
  const SuppressedCells := SuppressedQty + SuppressedQty + SuppressedQty

  /** A quantity that applies only to some sheets: rescaled where it
      applies, the empty object {} (zero, unit 0) elsewhere. */
  function KeptQty(applies: bool, kg: Num): (r: string)
    ensures |r| == 14
  {
    if applies then Qty(kg) else QtyCells(Suppressed)
  }

  /** Whatever was passed, a quantity that does not apply reads zero with
      unit 0; one that applies is the rescaled quantity. */
  lemma KeptQtyCases(applies: bool, kg: Num)
    ensures !applies ==> KeptQty(applies, kg) == SuppressedQty
    ensures applies ==> KeptQty(applies, kg) == Qty(kg)
  {
    QtySuppressed();
  }

  /** A missing quantity is not rescaled either: zero, unit 1. */
  lemma QtyNull()
    ensures Qty(Null) == ZeroQty
  {
    hide FormatNumber;
    assert ToMeasure(Null, None) == Measure(Null, Text("1"));
    assert Qty(Null) == Cell(FormatNumber(Null, 7, 3)) + Cell(FormatNumber(Text("1"), 1, 0));
    FormatNullExamples();
    FormatTextOne();
  }

  lemma FormatThousandthsOfZero()
    ensures FormatNumber(Val(Decimal(0, 0)), 7, 3) == "0000000,000"
  {
    hide FormatNumber;
    FormatZeroValue(Val(Decimal(0, 0)), 7, 3);
  }

  lemma FormatTextOne()
    ensures FormatNumber(Text("1"), 1, 0) == "1" && FormatNumber(Text("2"), 1, 0) == "2"
  {
    hide FormatNumber;
    FormatNumberWhole(Text("1"), 1);
    FormatNumberWhole(Text("2"), 1);
    assert ParseDigits("1") == 1 && ParseDigits("2") == 2;
  }

  /** A quantity held in thousandths of a kilogram: below 10 000 000 kg it
      is written in kilograms with unit 1; from there on in tonnes with three
      decimals (whole kilograms, rounded half up) with unit 2. */
  lemma QtyOfThousandths(u: nat)
    ensures u < 10000000000 ==>
      Qty(Val(Decimal(u, 3))) == PadDigits(u / 1000, 7) + "," + PadDigits(u % 1000, 3) + ";1;"
    ensures u >= 10000000000 ==>
      var t := (u + 500) / 1000;
      Qty(Val(Decimal(u, 3))) == PadDigits(t / 1000, 7) + "," + PadDigits(t % 1000, 3) + ";2;"
  {
    var m := ToMeasure(Val(Decimal(u, 3)), None);
    assert Pow10(3) == 1000;
    assert AtLeast(Decimal(u, 3), DefaultLimit) <==> u >= 10000000000;
    FormatTextOne();
    if u < 10000000000 {
      FormatThousandths(u, 7);
    } else {
      assert m.value == Val(Decimal(u, 6));
      FormatRescaled(u, 7);
    }
  }

  /** The seven physical-state flags of a waste (powdery solid, non-powdery
      solid, spadable sludge, liquid, gaseous, viscous, other). */
  datatype PhysicalState = PhysicalState(powder: Option<bool>, solid: Option<bool>, sludge: Option<bool>,
    liquid: Option<bool>, gas: Option<bool>, viscous: Option<bool>, other: Option<bool>)

  /** The seven flag cells, two characters each. */
  function StateCells(p: PhysicalState): (r: string)
    ensures |r| == 14
  {
    Cell(FormatBoolean(p.powder)) + Cell(FormatBoolean(p.solid)) + Cell(FormatBoolean(p.sludge))
      + Cell(FormatBoolean(p.liquid)) + Cell(FormatBoolean(p.gas)) + Cell(FormatBoolean(p.viscous))
      + Cell(FormatBoolean(p.other))
  }

  /** The waste-code cell after the stripping step. */
  function CerCell(c: Code): (r: string)
    ensures |r| == 7
  {
    Cell(FormatString(CodeString(StripCode(c)), 6, false))
  }

  /** The waste-code cell of a builder that does not strip: the code as
      passed, upper-cased and cut to six characters. */
  function RawCerCell(c: Code): (r: string)
    ensures |r| == 7
  {
    Cell(FormatString(CodeString(c), 6, false))
  }

  /** For a code already made of six digits the two cells agree. */
  lemma RawCerCellOfDigits(s: string)
    requires |s| == 6 && AllDigits(s)
    ensures RawCerCell(CodeText(s)) == CerCell(CodeText(s)) == s + ";"
  {
    KeepDigitsOfDigits(s);
    assert Upper(s) == s;
  }

  /** A code written with separators is cut, not cleaned, when it is not
      stripped: "16.01.04" becomes "16.01." where stripping gives
      "160104". */
  lemma RawCerCellSeparated(s: string)
    requires s == "16.01.04"
    ensures RawCerCell(CodeText(s)) == "16.01.;"
    ensures CerCell(CodeText(s)) == "160104;"
  {
    UpperCut(s, "16.01.");
    KeepDigitsSeparated(s);
    CerCellStripped(s);
  }

  lemma UpperCut(s: string, t: string)
    requires s == "16.01.04" && t == "16.01."
    ensures Upper(s)[..6] == t
  {
    assert forall i :: 0 <= i < 6 ==> Upper(s)[i] == UpperChar(s[i]) == s[i];
  }

  lemma KeepDigitsSeparated(s: string)
    requires s == "16.01.04"
    ensures KeepDigits(s) == "160104"
  {
    assert s == "16." + "01." + "04";
    KeepDigitsAppend("16." + "01.", "04");
    KeepDigitsAppend("16.", "01.");
    assert KeepDigits("16.") == "16";
    assert KeepDigits("01.") == "01";
    assert KeepDigits("04") == "04";
  }

  /** The waste-code cell of the two MG lines of the vehicle and packaging
      sections: stripped of separators, or as passed. */
  function MgCerCell(c: Code, stripped: bool): (r: string)
    ensures |r| == 7
  {
    if stripped then CerCell(c) else RawCerCell(c)
  }

  /** The waste code and the five-digit attachment number that close the
      key of those lines. */
  function MgTail(c: Code, attachmentNo: Num, stripped: bool): (r: string)
    ensures |r| == 13 && r[..7] == MgCerCell(c, stripped)
  {
    MgCerCell(c, stripped) + Cell(FormatNumber(attachmentNo, 5, 0))
  }

  /** A waste code written with separators comes out as its six digits. */
  lemma CerCellStripped(s: string)
    requires |KeepDigits(s)| == 6
    ensures CerCell(CodeText(s)) == KeepDigits(s) + ";"
  {
    assert Upper(KeepDigits(s)) == KeepDigits(s);
  }

  /** The '' the builders substitute for a suppressed text field. */
  const Blank: Option<string> := Some("")

  /** The zero the builders substitute for a suppressed ISTAT code. */
  const ZeroNum := Val(Decimal(0, 0))

  /** A null or suppressed text field is all blanks. */
  lemma BlankField(w: nat)
    ensures FormatString(None, w, false) == Spaces(w)
    ensures FormatString(Blank, w, false) == Spaces(w)
  {
    assert Upper("") == "";
  }

  /** The counterpart named in an attachment: tax code, company name,
      ISTAT province and comune, street, house number and postcode. */
  datatype Party = Party(taxCode: Option<string>, name: Option<string>, province: Num, comune: Num,
    street: Option<string>, houseNumber: Option<string>, postcode: Option<string>)

  /** The seven party cells: 17 + 61 + 4 + 4 + 31 + 7 + 6 characters. */
  function PartyCells(p: Party): (r: string)
    ensures |r| == 130
  {
    Cell(FormatString(p.taxCode, 16, false)) + Cell(FormatString(p.name, 60, false))
      + Cell(FormatNumber(p.province, 3, 0)) + Cell(FormatNumber(p.comune, 3, 0))
      + Cell(FormatString(p.street, 30, false)) + Cell(FormatString(p.houseNumber, 6, false))
      + Cell(FormatString(p.postcode, 5, false))
  }

  lemma FormatZeroCode()
    ensures FormatNumber(ZeroNum, 3, 0) == "000"
  {
    FormatNumberWhole(ZeroNum, 3);
    assert DivPow10(0, 0) == 0;
  }

  /** A party with every field suppressed: blanks, and 000 for the ISTAT
      codes. */
  lemma BlankPartyCells(tax: Option<string>, name: Option<string>)
    ensures PartyCells(Party(tax, name, ZeroNum, ZeroNum, Blank, Blank, Blank))
      == Cell(FormatString(tax, 16, false)) + Cell(FormatString(name, 60, false))
        + "000;000;" + Cell(Spaces(30)) + Cell(Spaces(6)) + Cell(Spaces(5))
  {
    BlankField(30);
    BlankField(6);
    BlankField(5);
    FormatZeroCode();
    var lead := Cell(FormatString(tax, 16, false)) + Cell(FormatString(name, 60, false));
    var code := Cell(FormatNumber(ZeroNum, 3, 0));
    assert code == "000;";
    hide FormatString, FormatNumber, Cell, Spaces;
    assert code + code == "000;000;";
    assert lead + code + code == lead + (code + code);
  }

  /** The single cell of a flag. */
  function FlagCell(b: Option<bool>): (r: string)
    ensures r == "1;" || r == "0;"
  {
    Cell(FormatBoolean(b))
  }

  /** A flag cell reads 1 exactly for true. */
  lemma FlagCellOf(b: bool)
    ensures FlagCell(Some(b)) == "1;" <==> b
    ensures !b ==> FlagCell(Some(b)) == "0;"
  {
    assert "0;"[0] != "1;"[0];
  }

  /** A run of quantities, two cells each, in order. */
  function QtyList(qs: seq<Num>): (r: string)
    ensures |r| == 14 * |qs|
  {
    var ss := seq(|qs|, j requires 0 <= j < |qs| => Qty(qs[j]));
    ConcatWidth(ss, 14);
    Concat(ss)
  }

  /** The i-th quantity of a run sits in characters 14i to 14i + 14. */
  lemma QtyListAt(qs: seq<Num>, i: nat)
    requires i < |qs|
    ensures QtyList(qs)[14 * i..14 * i + 14] == Qty(qs[i])
  {
    hide Qty;
    var ss := seq(|qs|, j requires 0 <= j < |qs| => Qty(qs[j]));
    ConcatAt(ss, 14, i);
  }

  /** The kind of a VE or IC attachment: waste received from (RT) or
      transported by (TE) a third party. */
  datatype Handover = Received | Transported

  function HandoverTag(k: Handover): (r: string)
    ensures |r| == 2 && Upper(r) == r
  {
    match k
    case Received => "RT"
    case Transported => "TE"
  }

  /** The delivered quantity, the four attachment counts and the one-digit
      filler that open a VC or IA sheet: 14 + 4 * 6 + 2 characters. */
  function CountCells(deliveredKg: Num, rtCount: Num, drCount: Num, teCount: Num, mgCount: Num): (r: string)
    ensures |r| == 40
  {
    Qty(deliveredKg) + Cell(FormatNumber(rtCount, 5, 0)) + Cell(FormatNumber(drCount, 5, 0))
      + Cell(FormatNumber(teCount, 5, 0)) + Cell(FormatNumber(mgCount, 5, 0)) + Cell("0")
  }

  /** The filler (Array(2).join('0')) is the single character 0. */
  lemma CountCellsFiller(deliveredKg: Num, rtCount: Num, drCount: Num, teCount: Num, mgCount: Num)
    ensures CountCells(deliveredKg, rtCount, drCount, teCount, mgCount)[38..] == "0;"
  {
    SliceRight(Qty(deliveredKg) + Cell(FormatNumber(rtCount, 5, 0)) + Cell(FormatNumber(drCount, 5, 0))
      + Cell(FormatNumber(teCount, 5, 0)) + Cell(FormatNumber(mgCount, 5, 0)), Cell("0"));
  }

  /** The mayor's-order flag, the landfill class and the landfilled
      quantity in tonnes (never rescaled, no unit) of a VG or IE line. */
  function LandfillCells(byMayorOrder: Option<bool>, landfillClass: Num, landfillKg: Num): (r: string)
    ensures |r| == 16
  {
    Cell(FormatBoolean(byMayorOrder)) + Cell(FormatNumber(landfillClass, 1, 0))
      + Cell(FormatNumber(DivThousand(landfillKg), 7, 3))
  }

  /** The landfilled quantity is kilograms over 1000, exact to the
      kilogram. */
  lemma LandfillTonnes(byMayorOrder: Option<bool>, landfillClass: Num, kg: nat)
    ensures LandfillCells(byMayorOrder, landfillClass, Val(Decimal(kg, 0)))[4..]
      == Cell(PadDigits(kg / 1000, 7) + "," + PadDigits(kg % 1000, 3))
  {
    SliceRight(Cell(FormatBoolean(byMayorOrder)) + Cell(FormatNumber(landfillClass, 1, 0)),
      Cell(FormatNumber(DivThousand(Val(Decimal(kg, 0))), 7, 3)));
    assert DivThousand(Val(Decimal(kg, 0))) == Val(Decimal(kg, 3));
    FormatThousandths(kg, 7);
  }

  /** The declared quantity, the nation (upper-cased, Italy dropped) and the
      regulation code of a delivery: 14 + 21 + 7 characters. */
  function Shipment(declaredKg: Num, nation: Option<string>, regulationCode: Option<string>): (r: string)
    ensures |r| == 42
  {
    Qty(declaredKg) + Cell(FormatString(NormalizeNation(nation), 20, false))
      + Cell(FormatString(regulationCode, 6, false))
  }

  /** Italy, however spelt, leaves the nation field blank; a foreign
      nation is written upper-case. */
  lemma ShipmentNation(declaredKg: Num, nation: Option<string>, regulationCode: Option<string>)
    ensures nation.Some? && IsItaly(Upper(nation.value)) ==>
      Shipment(declaredKg, nation, regulationCode)[14..35] == Cell(Spaces(20))
    ensures nation.Some? && !IsItaly(Upper(nation.value)) ==>
      Shipment(declaredKg, nation, regulationCode)[14..35] == Cell(FormatString(Some(Upper(nation.value)), 20, false))
  {
    Split3(Qty(declaredKg), Cell(FormatString(NormalizeNation(nation), 20, false)),
      Cell(FormatString(regulationCode, 6, false)));
    if nation.Some? && IsItaly(Upper(nation.value)) {
      ItalyRendersBlank(nation.value);
    }
  }

  /** One destination of a DR-VEIC or DR-IMB attachment: the quantity
      delivered and whether it went to recovery ("R") or disposal ("D"). */
  datatype Destination = Destination(kg: Num, route: Option<string>)

  /** The two cells of a destination: quantity, then the one-letter route. */
  function DestinationCells(t: Destination): (r: string)
    ensures |r| == 16
  {
    Qty(t.kg) + Cell(FormatString(t.route, 1, false))
  }

  /** A run of destinations, sixteen characters each. */
  function DestinationList(ts: seq<Destination>): (r: string)
    ensures |r| == 16 * |ts|
  {
    var ss := seq(|ts|, j requires 0 <= j < |ts| => DestinationCells(ts[j]));
    ConcatWidth(ss, 16);
    Concat(ss)
  }

  lemma DestinationListAt(ts: seq<Destination>, i: nat)
    requires i < |ts|
    ensures DestinationList(ts)[16 * i..16 * i + 16] == DestinationCells(ts[i])
  {
    hide DestinationCells;
    var ss := seq(|ts|, j requires 0 <= j < |ts| => DestinationCells(ts[j]));
    ConcatAt(ss, 16, i);
  }

  /** The thirteen destinations R/D1 to R/D13, then the disposals D14 and
      D15. */
  function Destinations(ts: seq<Destination>, d14Kg: Num, d15Kg: Num): (r: string)
    requires |ts| == 13
    ensures |r| == 236
  {
    DestinationList(ts) + (Qty(d14Kg) + Qty(d15Kg))
  }

  /** The i-th destination of a run found at offset off. */
  lemma DestinationAt(s: string, off: nat, ts: seq<Destination>, rest: string, i: nat)
    requires off <= |s| && s[off..] == DestinationList(ts) + rest && i < |ts|
    ensures s[off + 16 * i..off + 16 * i + 16] == DestinationCells(ts[i])
  {
    hide *;
    DestinationListAt(ts, i);
    PieceAt(s, off, DestinationList(ts), rest, 16 * i, 16 * i + 16);
  }

  /** The disposals D14 and D15 close the run. */
  lemma DestinationsStorage(ts: seq<Destination>, d14Kg: Num, d15Kg: Num)
    requires |ts| == 13
    ensures Destinations(ts, d14Kg, d15Kg)[208..] == Qty(d14Kg) + Qty(d15Kg)
  {
    SliceRight(DestinationList(ts), Qty(d14Kg) + Qty(d15Kg));
  }

  /** Strings laid end to end. */
  function Concat(ss: seq<string>): string
  {
    if ss == [] then "" else Concat(ss[..|ss| - 1]) + ss[|ss| - 1]
  }

  lemma {:induction false} ConcatWidth(ss: seq<string>, w: nat)
    requires forall j :: 0 <= j < |ss| ==> |ss[j]| == w
    ensures |Concat(ss)| == w * |ss|
  {
    if ss != [] {
      ConcatWidth(ss[..|ss| - 1], w);
      assert w * |ss| == w * (|ss| - 1) + w;
    }
  }

  /** In a run of strings of width w, the i-th sits at w * i. */
  lemma {:induction false} ConcatAt(ss: seq<string>, w: nat, i: nat)
    requires forall j :: 0 <= j < |ss| ==> |ss[j]| == w
    requires i < |ss|
    ensures w * i + w <= |Concat(ss)| && Concat(ss)[w * i..w * i + w] == ss[i]
  {
    var init := ss[..|ss| - 1];
    ConcatWidth(ss, w);
    ConcatWidth(init, w);
    var a, b := Concat(init), ss[|ss| - 1];
    assert Concat(ss) == a + b;
    if i < |ss| - 1 {
      ConcatAt(init, w, i);
      SliceLeft(a, b, w * i, w * i + w);
    } else {
      SliceRight(a, b);
    }
  }

  lemma CellsBefore(i: nat, n: nat)
    requires i < n
    ensures 14 * i + 14 <= 14 * n
  {
  }

  lemma SliceLeft(a: string, b: string, lo: nat, hi: nat)
    requires lo <= hi <= |a|
    ensures (a + b)[lo..hi] == a[lo..hi]
  {
  }

  /** The three parts of a concatenation are where they were put. */
  lemma Split3(a: string, b: string, c: string)
    ensures (a + b + c)[..|a|] == a
    ensures (a + b + c)[|a|..|a| + |b|] == b
    ensures (a + b + c)[|a| + |b|..] == c
  {
  }

  /** The four parts of a concatenation are where they were put. */
  lemma Parts4(a: string, b: string, c: string, d: string)
    ensures var s := a + b + c + d;
      s[..|a|] == a && s[|a|..|a| + |b|] == b && s[|a| + |b|..|a| + |b| + |c|] == c
      && s[|a| + |b| + |c|..] == d
  {
    Split3(a, b, c + d);
    assert a + b + (c + d) == a + b + c + d;
    SliceOfSuffix(a + b + c + d, |a| + |b|, 0, |c|);
  }

  /** The five parts of a concatenation are where they were put. */
  lemma Parts5(a: string, b: string, c: string, d: string, e: string)
    ensures var s := a + b + c + d + e;
      s[..|a|] == a && s[|a|..|a| + |b|] == b && s[|a| + |b|..|a| + |b| + |c|] == c
      && s[|a| + |b| + |c|..|a| + |b| + |c| + |d|] == d && s[|a| + |b| + |c| + |d|..] == e
    ensures |a| >= 3 ==> (a + b + c + d + e)[..3] == a[..3]
  {
    Split3(a, b, c + d + e);
    Split3(a + b + c, d, e);
    assert a + b + (c + d + e) == a + b + c + d + e;
    assert (a + b + c + d + e)[|a| + |b|..|a| + |b| + |c|] == (c + d + e)[..|c|];
  }

  /** The six parts of a concatenation are where they were put. */
  lemma Parts6(a: string, b: string, c: string, d: string, e: string, f: string)
    ensures var s := a + b + c + d + e + f;
      var i, j, k, l, m := |a|, |a| + |b|, |a| + |b| + |c|, |a| + |b| + |c| + |d|, |a| + |b| + |c| + |d| + |e|;
      s[..i] == a && s[i..j] == b && s[j..k] == c && s[k..l] == d && s[l..m] == e && s[m..] == f
    ensures |a| >= 3 ==> (a + b + c + d + e + f)[..3] == a[..3]
  {
    Parts5(a, b, c, d, e + f);
    assert a + b + c + d + (e + f) == a + b + c + d + e + f;
    SliceOfSuffix(a + b + c + d + e + f, |a| + |b| + |c| + |d|, 0, |e|);
    SliceOfSuffix(a + b + c + d + e + f, |a| + |b| + |c| + |d|, |e|, |e| + |f|);
  }

  /** A run of quantities that ends a line: its i-th quantity. */
  lemma QtyRunAt(s: string, off: nat, qs: seq<Num>, i: nat)
    requires off <= |s| && s[off..] == QtyList(qs) && i < |qs|
    ensures s[off + 14 * i..off + 14 * i + 14] == Qty(qs[i])
  {
    hide *;
    QtyListAt(qs, i);
    SliceOfSuffix(s, off, 14 * i, 14 * i + 14);
  }

  /** Two strings equal after their tag stay so when extended alike. */
  lemma SameAfterTag(a: string, b: string, c: string)
    requires |a| >= 3 && |b| >= 3 && a[3..] == b[3..]
    ensures (a + c)[..3] == a[..3] && (b + c)[..3] == b[..3] && (a + c)[3..] == (b + c)[3..]
  {
    assert (a + c)[3..] == a[3..] + c;
    assert (b + c)[3..] == b[3..] + c;
  }

  lemma SliceOfSuffix(s: string, i: nat, j: nat, k: nat)
    requires i + j <= i + k <= |s|
    ensures s[i..][j..k] == s[i + j..i + k]
  {
  }

  /** A piece of the part that follows offset off in s. */
  lemma PieceAt(s: string, off: nat, t: string, rest: string, i: nat, j: nat)
    requires off <= |s| && s[off..] == t + rest && i <= j <= |t|
    ensures s[off + i..off + j] == t[i..j]
  {
    SliceLeft(t, rest, i, j);
    SliceOfSuffix(s, off, i, j);
  }

  /** A slice of a prefix is a slice of the whole. */
  lemma SliceOfPrefix(s: string, n: nat, i: nat, j: nat)
    requires i <= j <= n <= |s|
    ensures s[..n][i..j] == s[i..j]
  {
  }

  /** A slice of a part found at offset off is a slice of the whole. */
  lemma SliceWithin(s: string, off: nat, t: string, i: nat, j: nat)
    requires off + |t| <= |s| && s[off..off + |t|] == t && i <= j <= |t|
    ensures s[off + i..off + j] == t[i..j]
  {
    var u := s[off..off + |t|];
    assert forall k :: 0 <= k < j - i ==> s[off + i..off + j][k] == s[off + i + k] == u[i + k] == u[i..j][k];
  }

  lemma PrefixOf(a: string, b: string, k: nat)
    requires k <= |a|
    ensures (a + b)[..k] == a[..k]
  {
  }

  lemma SliceRight(a: string, b: string)
    ensures (a + b)[|a|..|a| + |b|] == b && (a + b)[|a|..] == b
  {
  }
}
