/** The header of the export file (export-mud/index.js): the XX record,
    which counts the records of every other type and identifies the
    sender; and the length flag its builder hands to the callback. */
module Mud {
  import opened Digits
  import opened Utils
  import opened Fields

  /** The record types the header counts, in the order of its fields. */
  const RecordTypes: seq<string> := ["AA", "AB", "BA", "BB", "BC", "BD", "BE", "DA", "DB",
    "RA", "RB", "RC", "RD", "RE", "RF", "VC", "VD", "VE", "VF", "VG", "VH",
    "IA", "IB", "IC", "ID", "IE", "IF", "MA"]

  /** The sum of the counts, added left to right. */
  function Sum(ns: seq<nat>): nat
  {
    if ns == [] then 0 else Sum(ns[..|ns| - 1]) + ns[|ns| - 1]
  }

  /** Every count is part of the total. */
  lemma {:induction false} SumBound(ns: seq<nat>, i: nat)
    requires i < |ns|
    ensures ns[i] <= Sum(ns)
  {
    if i < |ns| - 1 {
      SumBound(ns[..|ns| - 1], i);
    }
  }

  /** Adding one record of a type adds one to the total. */
  lemma {:induction false} SumIncrement(ns: seq<nat>, i: nat)
    requires i < |ns|
    ensures Sum(ns[i := ns[i] + 1]) == Sum(ns) + 1
  {
    var ms := ns[i := ns[i] + 1];
    if i < |ns| - 1 {
      assert ms[..|ms| - 1] == ns[..|ns| - 1][i := ns[i] + 1];
      SumIncrement(ns[..|ns| - 1], i);
    } else {
      assert ms[..|ms| - 1] == ns[..|ns| - 1];
    }
  }

  /** A count written to a whole-number field of width w. */
  function CountField(n: nat, w: nat): (r: string)
    requires w >= 1
    ensures r == PadDigits(n, w)
  {
    FormatWholeCount(n, w);
    FormatNumber(Val(Decimal(n, 0)), w, 0)
  }

  lemma FormatWholeCount(n: nat, w: nat)
    requires w >= 1
    ensures FormatNumber(Val(Decimal(n, 0)), w, 0) == PadDigits(n, w)
  {
    FormatNumberWhole(Val(Decimal(n, 0)), w);
    assert Pow10(0) == 1;
    assert ModPow10(n, 0) == 0 && DivPow10(n, 0) == n;
  }

  /** The 28 counts, five digits each. */
  function CountList(ns: seq<nat>): (r: string)
    ensures |r| == 6 * |ns|
  {
    var ss := seq(|ns|, j requires 0 <= j < |ns| => Cell(CountField(ns[j], 5)));
    ConcatWidth(ss, 6);
    Concat(ss)
  }

  lemma CountListAt(ns: seq<nat>, i: nat)
    requires i < |ns|
    ensures CountList(ns)[6 * i..6 * i + 6] == Cell(PadDigits(ns[i], 5))
  {
    var ss := seq(|ns|, j requires 0 <= j < |ns| => Cell(CountField(ns[j], 5)));
    ConcatAt(ss, 6, i);
  }

  /** The sender of the file. */
  datatype Sender = Sender(taxCode: Option<string>, name: Option<string>, street: Option<string>,
    houseNumber: Option<string>, postcode: Option<string>, city: Option<string>, province: Option<string>,
    phonePrefix: Option<string>, phoneNumber: Option<string>, email: Option<string>)

  function SenderCells(s: Sender): (r: string)
    ensures |r| == 238
  {
    Cell(FormatString(s.taxCode, 16, false)) + Cell(FormatString(s.name, 60, false))
      + Cell(FormatString(s.street, 30, false)) + Cell(FormatString(s.houseNumber, 10, false))
      + Cell(FormatString(s.postcode, 5, false)) + Cell(FormatString(s.city, 30, false))
      + Cell(FormatString(s.province, 2, false)) + Cell(FormatString(s.phonePrefix, 5, false))
      + Cell(FormatString(s.phoneNumber, 10, false)) + Cell(FormatString(s.email, 60, false))
  }

  /** The fixed release and file type, the compilation date and time, and
      the total. The clock is read once for the date and once for the time. */
  function XxPreamble(clockForDate: DateTime, clockForTime: DateTime, counts: seq<nat>): (r: string)
    ensures |r| == 39
  {
    Cell("XX") + Cell("6.00/14") + Cell(FormatNumber(Val(Decimal(1, 0)), 2, 0))
      + Cell(FormatDate(Some(clockForDate), YYYYMMDD)) + Cell(FormatDate(Some(clockForTime), HHmmss))
      + Cell(CountField(Sum(counts), 8))
  }

  /** The software that produced the file, in the reserved last field. */
  const Software := "mudrifiuti.com v1.0.0"

  /** getRecordXX: the header line. */
  function Xx(clockForDate: DateTime, clockForTime: DateTime, counts: seq<nat>, sender: Sender): (r: string)
    requires |counts| == |RecordTypes|
    ensures |r| == 482
  {
    XxPreamble(clockForDate, clockForTime, counts) + CountList(counts) + Cell(Zeros(5)) + SenderCells(sender)
      + Cell(FormatString(Some(Software), 30, false))
  }

  /** Where the XX line keeps each of its parts. */
  lemma XxLayout(clockForDate: DateTime, clockForTime: DateTime, counts: seq<nat>, sender: Sender)
    requires |counts| == |RecordTypes|
    ensures var r := Xx(clockForDate, clockForTime, counts, sender);
      r[..39] == XxPreamble(clockForDate, clockForTime, counts) && r[39..207] == CountList(counts)
      && r[207..213] == Cell(Zeros(5)) && r[213..451] == SenderCells(sender)
      && r[451..] == Cell(FormatString(Some(Software), 30, false))
  {
    Parts5(XxPreamble(clockForDate, clockForTime, counts), CountList(counts), Cell(Zeros(5)), SenderCells(sender),
      Cell(FormatString(Some(Software), 30, false)));
  }

  /** The preamble: tag, release, file type, date, time and total. */
  lemma XxPreambleLayout(clockForDate: DateTime, clockForTime: DateTime, counts: seq<nat>)
    ensures var p := XxPreamble(clockForDate, clockForTime, counts);
      p[..14] == "XX;6.00/14;01;" && p[14..23] == Cell(FormatDate(Some(clockForDate), YYYYMMDD))
      && p[23..30] == Cell(FormatDate(Some(clockForTime), HHmmss)) && p[30..] == Cell(PadDigits(Sum(counts), 8))
  {
    FormatWholeCount(1, 2);
    assert PadDigits(1, 2) == "01" by {
      assert PadDigits(0, 1) == "0";
    }
    var a := Cell("XX") + Cell("6.00/14") + Cell(FormatNumber(Val(Decimal(1, 0)), 2, 0));
    assert a == "XX;6.00/14;01;";
    Parts4(a, Cell(FormatDate(Some(clockForDate), YYYYMMDD)), Cell(FormatDate(Some(clockForTime), HHmmss)),
      Cell(CountField(Sum(counts), 8)));
  }

  /** The constant fields: tag, release 6.00/14, file type 01, the filler
      and the upper-cased software name. */
  lemma XxConstants(clockForDate: DateTime, clockForTime: DateTime, counts: seq<nat>, sender: Sender)
    requires |counts| == |RecordTypes|
    ensures var r := Xx(clockForDate, clockForTime, counts, sender);
      r[..14] == "XX;6.00/14;01;" && r[207..213] == "00000;"
      && r[451..] == "MUDRIFIUTI.COM V1.0.0" + Spaces(9) + ";"
  {
    hide Upper;
    XxLayout(clockForDate, clockForTime, counts, sender);
    XxPreambleLayout(clockForDate, clockForTime, counts);
    var r := Xx(clockForDate, clockForTime, counts, sender);
    SliceOfPrefix(r, 39, 0, 14);
    assert Zeros(5) == "00000";
    SoftwareUpper();
  }

  lemma SoftwareUpper()
    ensures Upper(Software) == "MUDRIFIUTI.COM V1.0.0"
  {
    hide Upper;
    var u := Upper(Software);
    assert forall i :: 0 <= i < |Software| ==> Software[i] != '\U{DF}';
    assert |u| == 21;
    assert forall i :: 0 <= i < |Software| ==> u[i] == UpperChar(Software[i]);
  }

  /** The compilation date and time read the clock. */
  lemma XxClock(clockForDate: DateTime, clockForTime: DateTime, counts: seq<nat>, sender: Sender)
    requires |counts| == |RecordTypes|
    ensures var r := Xx(clockForDate, clockForTime, counts, sender);
      r[14..23] == Cell(PadDigits(clockForDate.year, 4) + PadDigits(clockForDate.month, 2) + PadDigits(clockForDate.day, 2))
      && r[23..30] == Cell(PadDigits(clockForTime.hour, 2) + PadDigits(clockForTime.minute, 2) + PadDigits(clockForTime.second, 2))
  {
    XxLayout(clockForDate, clockForTime, counts, sender);
    XxPreambleLayout(clockForDate, clockForTime, counts);
    var r := Xx(clockForDate, clockForTime, counts, sender);
    SliceOfPrefix(r, 39, 14, 23);
    SliceOfPrefix(r, 39, 23, 30);
  }

  /** The i-th count field, for the record type RecordTypes[i]. */
  lemma XxCountAt(clockForDate: DateTime, clockForTime: DateTime, counts: seq<nat>, sender: Sender, i: nat)
    requires |counts| == |RecordTypes| && i < |RecordTypes|
    ensures Xx(clockForDate, clockForTime, counts, sender)[39 + 6 * i..45 + 6 * i] == Cell(PadDigits(counts[i], 5))
  {
    hide *;
    var r := Xx(clockForDate, clockForTime, counts, sender);
    XxLayout(clockForDate, clockForTime, counts, sender);
    CountListAt(counts, i);
    SliceWithin(r, 39, CountList(counts), 6 * i, 6 * i + 6);
  }

  /** The total field is the sum of the counts, modulo its eight digits. */
  lemma XxTotal(clockForDate: DateTime, clockForTime: DateTime, counts: seq<nat>, sender: Sender)
    requires |counts| == |RecordTypes|
    ensures var r := Xx(clockForDate, clockForTime, counts, sender);
      r[30..39] == Cell(PadDigits(Sum(counts), 8)) && ParseDigits(PadDigits(Sum(counts), 8)) == Sum(counts) % Pow10(8)
  {
    XxLayout(clockForDate, clockForTime, counts, sender);
    XxPreambleLayout(clockForDate, clockForTime, counts);
    var r := Xx(clockForDate, clockForTime, counts, sender);
    SliceOfPrefix(r, 39, 30, 39);
    ParsePadDigits(Sum(counts), 8);
  }

  /** The values the count fields read back as. */
  function CountsRead(counts: seq<nat>): seq<nat>
  {
    seq(|counts|, j requires 0 <= j < |counts| => ParseDigits(PadDigits(counts[j], 5)))
  }

  /** When every count fits its field and the total fits its own, the
      total field reads as the sum of the count fields. */
  lemma XxTotalOfFields(counts: seq<nat>)
    requires forall j :: 0 <= j < |counts| ==> counts[j] < Pow10(5)
    requires Sum(counts) < Pow10(8)
    ensures ParseDigits(PadDigits(Sum(counts), 8)) == Sum(CountsRead(counts))
  {
    ParsePadDigits(Sum(counts), 8);
    ModUnique(Sum(counts), Pow10(8), 0, Sum(counts));
    forall j | 0 <= j < |counts|
      ensures CountsRead(counts)[j] == counts[j]
    {
      ParsePadDigits(counts[j], 5);
      ModUnique(counts[j], Pow10(5), 0, counts[j]);
    }
    assert CountsRead(counts) == counts;
  }

  /** The builder hands its callback a false length flag: the line has
      exactly the length it is compared with. */
  lemma NoLengthFlag(clockForDate: DateTime, clockForTime: DateTime, counts: seq<nat>, sender: Sender)
    requires |counts| == |RecordTypes|
    ensures !Report(Xx(clockForDate, clockForTime, counts, sender), 482).lengthMismatch
  {
    hide *;
  }
}
