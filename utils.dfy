/** The primitive field formatters of the MUD export (export-mud/utils.js):
    numbers as zero-padded digit fields with an optional decimal comma,
    strings as upper-cased, blank-padded fixed-width fields, flags as one
    digit, dates as digit fields or blanks, and the kilogram/tonne rescaling
    of quantities.

    Numbers are exact decimals (units / 10^scale) instead of binary doubles;
    JavaScript's toFixed is modelled as exact rounding half up. */
module Utils {
  import opened Digits

  datatype Option<T> = None | Some(value: T)

  /** The non-negative exact decimal units / 10^scale. */
  datatype Decimal = Decimal(units: nat, scale: nat)

  const Zero := Decimal(0, 0)

  /** a >= b on the values the decimals denote. */
  predicate AtLeast(a: Decimal, b: Decimal)
  {
    MulPow10(a.units, b.scale) >= MulPow10(b.units, a.scale)
  }

  /** The same value divided by 1000. */
  function Thousandth(d: Decimal): Decimal
  {
    Decimal(d.units, d.scale + 3)
  }

  /** Thousandth is exact: the result times 1000 is the input. */
  lemma ThousandthValue(d: Decimal)
    ensures Thousandth(d).units * 1000 * Pow10(d.scale) == d.units * Pow10(Thousandth(d).scale)
  {
    Pow10Add(d.scale, 3);
    assert Pow10(3) == 1000;
  }

  /** A value handed to a numeric formatter: null or undefined, NaN, a number,
      or a string that JavaScript's Number() converts. */
  datatype Num = Null | NaN | Val(d: Decimal) | Text(s: string)

  /** JavaScript's Number() on the value: None stands for NaN.  Only strings
      made of decimal digits are numeric here (the empty string is 0). */
  function Coerce(v: Num): (r: Option<Decimal>)
    ensures v.Null? ==> r == Some(Zero)
    ensures v.Val? ==> r == Some(v.d)
    ensures v.NaN? ==> r == None
    ensures v.Text? ==> (r.Some? <==> AllDigits(v.s))
    ensures v.Text? && AllDigits(v.s) ==> r == Some(Decimal(ParseDigits(v.s), 0))
  {
    match v
    case Null => Some(Zero)
    case NaN => None
    case Val(d) => Some(d)
    case Text(s) => if AllDigits(s) then Some(Decimal(ParseDigits(s), 0)) else None
  }

  /** The number formattaNumero works on: null, undefined, NaN and
      non-numeric strings all become 0 (utils.js:32-33). */
  function NumberValue(v: Num): (r: Decimal)
    ensures Coerce(v).Some? ==> r == Coerce(v).value
    ensures Coerce(v).None? ==> r == Zero
  {
    match Coerce(v)
    case Some(d) => d
    case None => Zero
  }

  /** Removes trailing '0' characters. */
  function StripZeros(s: string): (r: string)
    ensures |r| <= |s| && r == s[..|r|]
    ensures r == [] || r[|r| - 1] != '0'
    ensures forall i :: |r| <= i < |s| ==> s[i] == '0'
  {
    if s == [] || s[|s| - 1] != '0' then s else StripZeros(s[..|s| - 1])
  }

  /** Number.prototype.toString of a non-negative decimal: the integer digits,
      then '.' and the fraction digits without trailing zeros if the value
      is not whole. */
  function JsString(d: Decimal): string
  {
    var whole, frac := DivPow10(d.units, d.scale), ModPow10(d.units, d.scale);
    if frac == 0 then NatDigits(whole)
    else NatDigits(whole) + "." + StripZeros(PadDigits(frac, d.scale))
  }

  /** The integer nearest to d * 10^f, ties going to the larger one: the
      integer toFixed(f) writes out, on the exact value. */
  function RoundHalfUp(d: Decimal, f: nat): nat
  {
    DivPow10((2 * MulPow10(d.units, f) + Pow10(d.scale)) / 2, d.scale)
  }

  /** RoundHalfUp(d, f) is within one half of d * 10^f, ties going up. */
  lemma RoundHalfUpBounds(d: Decimal, f: nat)
    ensures var r := RoundHalfUp(d, f);
      (2 * r - 1) * Pow10(d.scale) <= 2 * MulPow10(d.units, f) < (2 * r + 1) * Pow10(d.scale)
  {
    var p, m := Pow10(d.scale), MulPow10(d.units, f);
    var y := (2 * m + p) / 2;
    DivModPow10(y, d.scale);
    MulPow10Value(DivPow10(y, d.scale), d.scale);
    HalfUpStep(m, p, y, DivPow10(y, d.scale), ModPow10(y, d.scale));
  }

  lemma HalfUpStep(m: int, p: int, y: int, r: int, k: int)
    requires p >= 1 && y == (2 * m + p) / 2 && y == r * p + k && 0 <= k < p
    ensures (2 * r - 1) * p <= 2 * m < (2 * r + 1) * p
  {
    assert (2 * r - 1) * p == 2 * (r * p) - p && (2 * r + 1) * p == 2 * (r * p) + p;
  }

  /** Number.prototype.toFixed(f) for f >= 1: the rounded value's integer
      digits, '.', and exactly f fraction digits. */
  function ToFixed(d: Decimal, f: nat): string
    requires f >= 1
  {
    var n := RoundHalfUp(d, f);
    NatDigits(DivPow10(n, f)) + "." + PadDigits(ModPow10(n, f), f)
  }

  /** s with its first occurrence of a replaced by b. */
  function ReplaceFirst(s: string, a: char, b: char): (r: string)
    ensures |r| == |s|
    ensures a !in s ==> r == s
  {
    if s == [] then []
    else if s[0] == a then [b] + s[1..]
    else [s[0]] + ReplaceFirst(s[1..], a, b)
  }

  /** The width of a numeric field: the integer digits, plus the comma and
      the decimals when there are decimals. */
  function NumberWidth(interi: nat, decimali: nat): nat
  {
    interi + (if decimali > 0 then decimali + 1 else 0)
  }

  /** formattaNumero (utils.js:31-39): zero-prefix the rendered value, keep
      its last NumberWidth characters (all of it when the width is 0, since
      slice(-0) is slice(0)), and turn the decimal point into a comma.
      A decimali of 0 stands for an absent one. */
  function FormatNumber(v: Num, interi: nat, decimali: nat): (r: string)
    ensures NumberWidth(interi, decimali) > 0 ==> |r| == NumberWidth(interi, decimali)
    ensures NumberWidth(interi, decimali) == 0 ==> r == JsString(NumberValue(v))
  {
    var d := NumberValue(v);
    var tot := NumberWidth(interi, decimali);
    var text := if decimali > 0 then ToFixed(d, decimali) else JsString(d);
    var padded := Zeros(tot) + text;
    var strRet := if tot == 0 then padded else Suffix(padded, tot);
    if decimali > 0 then ReplaceFirst(strRet, '.', ',') else strRet
  }

  lemma SuffixAppend(s: string, t: string, n: nat)
    requires |t| <= n <= |s| + |t|
    ensures Suffix(s + t, n) == Suffix(s, n - |t|) + t
  {
  }

  /** With decimals, the field is the w low-order integer digits of the
      rounded value, a comma, and its f decimals. */
  lemma FormatNumberDecimals(v: Num, w: nat, f: nat)
    requires f >= 1
    ensures var n := RoundHalfUp(NumberValue(v), f);
      FormatNumber(v, w, f) == PadDigits(DivPow10(n, f), w) + "," + PadDigits(ModPow10(n, f), f)
  {
    hide RoundHalfUp, ReplaceFirst, Suffix, JsString, NumberValue, PadDigits, NatDigits, Zeros;
    var n := RoundHalfUp(NumberValue(v), f);
    var ip, fp := NatDigits(DivPow10(n, f)), PadDigits(ModPow10(n, f), f);
    var tot := w + f + 1;
    assert Zeros(tot) + ToFixed(NumberValue(v), f) == (Zeros(tot) + ip) + ("." + fp);
    SuffixAppend(Zeros(tot) + ip, "." + fp, tot);
    SuffixOfPaddedDigits(DivPow10(n, f), tot, w);
    var pd := PadDigits(DivPow10(n, f), w);
    assert Suffix(Zeros(tot) + ToFixed(NumberValue(v), f), tot) == pd + ("." + fp);
    ReplaceFirstAfterDigits(pd, fp);
  }

  lemma {:induction false} ReplaceFirstAfterDigits(ds: string, t: string)
    requires AllDigits(ds)
    ensures ReplaceFirst(ds + ("." + t), '.', ',') == ds + "," + t
  {
    if ds == [] {
      assert ("." + t)[0] == '.' && ("." + t)[1..] == t;
    } else {
      var u := ds + ("." + t);
      assert u[0] == ds[0] && IsDigit(ds[0]);
      assert u[1..] == ds[1..] + ("." + t);
      assert AllDigits(ds[1..]);
      ReplaceFirstAfterDigits(ds[1..], t);
      assert ReplaceFirst(u, '.', ',') == [ds[0]] + (ds[1..] + "," + t);
      assert [ds[0]] + (ds[1..] + "," + t) == ds + "," + t;
    }
  }

  /** Without decimals, a whole value gives its w low-order digits. */
  lemma FormatNumberWhole(v: Num, w: nat)
    requires w >= 1
    requires ModPow10(NumberValue(v).units, NumberValue(v).scale) == 0
    ensures FormatNumber(v, w, 0) == PadDigits(DivPow10(NumberValue(v).units, NumberValue(v).scale), w)
  {
    var d := NumberValue(v);
    SuffixOfPaddedDigits(DivPow10(d.units, d.scale), w, w);
  }

  /** Rounding a value that already has at most f decimals is exact. */
  lemma RoundExact(d: Decimal, f: nat)
    requires d.scale <= f
    ensures RoundHalfUp(d, f) == MulPow10(d.units, f - d.scale)
  {
    var e := MulPow10(d.units, f - d.scale);
    MulPow10Add(d.units, f - d.scale, d.scale);
    assert (2 * MulPow10(e, d.scale) + Pow10(d.scale)) / 2 == MulPow10(e, d.scale) + Pow10(d.scale) / 2;
    DivPow10Shift(e, Pow10(d.scale) / 2, d.scale);
  }

  /** Rounding to f decimals a value with f + 3 decimals: the nearest whole
      number of thousandths, ties up. */
  lemma RoundThousandths(u: nat, f: nat)
    ensures RoundHalfUp(Decimal(u, f + 3), f) == (u + 500) / 1000
  {
    var a, b := (u + 500) / 1000, (u + 500) % 1000;
    HalfShift(u, f);
    ThousandsSplit(u + 500, f);
    MulPow10Less(b, 1000, f);
    DivPow10Shift(a, MulPow10(b, f), f + 3);
    assert RoundHalfUp(Decimal(u, f + 3), f) == DivPow10(MulPow10(u + 500, f), f + 3);
  }

  /** Halving 2u·10^f + 10^(f+3) adds five hundred units before the shift. */
  lemma HalfShift(u: nat, f: nat)
    ensures Pow10(f + 3) == MulPow10(1000, f)
    ensures (2 * MulPow10(u, f) + Pow10(f + 3)) / 2 == MulPow10(u + 500, f)
  {
    Pow10AsShift(f + 3);
    MulPow10Add(1, 3, f);
    assert MulPow10(1, 3) == 1000;
    MulPow10Sum(500, 500, f);
    MulPow10Sum(u, 500, f);
  }

  /** Splitting v into thousands and a remainder before the shift by f. */
  lemma ThousandsSplit(v: nat, f: nat)
    ensures MulPow10(v, f) == MulPow10(v / 1000, f + 3) + MulPow10(v % 1000, f)
  {
    var a, b := v / 1000, v % 1000;
    MulPow10Value(a, 3);
    assert Pow10(3) == 1000;
    assert v == MulPow10(a, 3) + b;
    MulPow10Sum(MulPow10(a, 3), b, f);
    MulPow10Add(a, 3, f);
  }

  /** The lower-case letters whose capital is 32 code points below them:
      a-z and the Latin-1 letters à-þ except the sign ÷. */
  predicate ShiftsDown(c: char)
  {
    'a' <= c <= 'z' || ('\U{E0}' <= c <= '\U{FE}' && c != '\U{F7}')
  }

  /** toUpperCase on one Latin-1 character whose capital is one character:
      ÿ becomes Ÿ (U+0178) and µ the Greek capital mu (U+039C); the result is
      its own capital. */
  function UpperChar(c: char): (r: char)
    ensures ShiftsDown(c) ==> r as int == c as int - 32
    ensures c == '\U{FF}' ==> r == '\U{178}'
    ensures c == '\U{B5}' ==> r == '\U{39C}'
    ensures !ShiftsDown(c) && c != '\U{FF}' && c != '\U{B5}' ==> r == c
    ensures !ShiftsDown(r) && r != '\U{FF}' && r != '\U{B5}'
  {
    if ShiftsDown(c) then (c as int - 32) as char
    else if c == '\U{FF}' then '\U{178}'
    else if c == '\U{B5}' then '\U{39C}'
    else c
  }

  /** toUpperCase on one character: the sharp s becomes "SS". */
  function UpperChars(c: char): (r: string)
  {
    if c == '\U{DF}' then "SS" else [UpperChar(c)]
  }

  /** String.prototype.toUpperCase on Latin-1 text: only a sharp s changes
      the length, and without one every character becomes its capital. */
  function Upper(s: string): (r: string)
    ensures |s| <= |r| && '\U{DF}' !in r
    ensures '\U{DF}' !in s ==> |r| == |s| && forall i :: 0 <= i < |s| ==> r[i] == UpperChar(s[i])
  {
    if s == [] then [] else UpperChars(s[0]) + Upper(s[1..])
  }

  /** Upper-casing works character by character. */
  lemma {:induction false} UpperAppend(a: string, b: string)
    ensures Upper(a + b) == Upper(a) + Upper(b)
  {
    if a == [] {
      assert a + b == b;
    } else {
      assert (a + b)[0] == a[0] && (a + b)[1..] == a[1..] + b;
      UpperAppend(a[1..], b);
    }
  }

  /** An accented capital, as toUpperCase writes it. */
  lemma UpperAccented()
    ensures Upper("Città") == "CITTÀ"
  {
    assert Upper("Citt") == "CITT";
    assert Upper("à") == "À";
    UpperAppend("Citt", "à");
    assert "Città" == "Citt" + "à";
  }

  /** Text made of capitals is left as it is. */
  lemma UpperOfCapitals(s: string)
    requires forall i :: 0 <= i < |s| ==> s[i] != '\U{DF}' && UpperChar(s[i]) == s[i]
    ensures Upper(s) == s
  {
    hide Upper;
    assert '\U{DF}' !in s;
  }

  /** The sharp s becomes two capitals, so the text grows before
      formattaStringa cuts it to the width. */
  lemma UpperSharpS()
    ensures Upper("ß") == "SS"
    ensures FormatString(Some("ß"), 1, false) == "S"
  {
    assert Upper("ß") == UpperChars('\U{DF}') + Upper("");
  }

  /** A capital is its own capital. */
  lemma UpperCharsFixed(c: char)
    ensures Upper(UpperChars(c)) == UpperChars(c)
  {
    if c == '\U{DF}' {
      assert Upper("SS") == "SS";
    } else {
      var x := UpperChar(c);
      assert [x][0] == x && [x][1..] == [];
    }
  }

  /** formattaStringa (utils.js:47-53): null is the empty string; the value is
      upper-cased unless bypassed, then blank-padded on the right or cut to
      the width. */
  function FormatString(v: Option<string>, width: nat, keepCase: bool): (r: string)
    ensures |r| == width
    ensures var s := if v.Some? then v.value else "";
      var c := if keepCase then s else Upper(s);
      if |c| <= width then r == c + Spaces(width - |c|) else r == c[..width]
  {
    var s := if v.Some? then v.value else "";
    var c := if keepCase then s else Upper(s);
    (c + Spaces(width))[..width]
  }

  /** formattaBoolean (utils.js:59-64): '1' for a true flag, '0' for false,
      null or undefined. */
  function FormatBoolean(v: Option<bool>): (r: string)
    ensures |r| == 1 && (r == "1" <==> v == Some(true)) && (r != "1" ==> r == "0")
  {
    if v == Some(true) then "1" else "0"
  }

  /** A calendar date and time of day. */
  datatype DateTime = DateTime(year: nat, month: nat, day: nat, hour: nat, minute: nat, second: nat)

  /** The two Moment.js patterns the export uses. */
  datatype DateFormat = YYYYMMDD | HHmmss

  function Pattern(f: DateFormat): string
  {
    match f
    case YYYYMMDD => "YYYYMMDD"
    case HHmmss => "HHmmss"
  }

  /** formattaDataOra (utils.js:71-74): blanks as wide as the pattern for a
      missing date; otherwise the zero-padded numeric fields the pattern
      names. */
  function FormatDate(v: Option<DateTime>, f: DateFormat): (r: string)
    ensures |r| == |Pattern(f)|
    ensures v.None? ==> r == Spaces(|Pattern(f)|)
    ensures v.Some? ==> AllDigits(r)
  {
    match v
    case None => Spaces(|Pattern(f)|)
    case Some(t) =>
      match f
      case YYYYMMDD => PadDigits(t.year, 4) + PadDigits(t.month, 2) + PadDigits(t.day, 2)
      case HHmmss => PadDigits(t.hour, 2) + PadDigits(t.minute, 2) + PadDigits(t.second, 2)
  }

  /** A quantity with its unit of measure; the unit is the text '1' (kg) or
      '2' (tonnes), or absent in an empty object. */
  datatype Measure = Measure(value: Num, unit: Num)

  /** The empty object {} the builders put in place of a suppressed
      quantity: both of its fields are undefined. */
  const Suppressed := Measure(Null, Null)

  /** The default threshold, 10 000 000. */
  const DefaultLimit := Decimal(10000000, 0)

  /** getOggettoValoreUM (utils.js:81-92): a value at or above the limit
      (10 000 000 when the limit is null or NaN) is divided by 1000 and
      flagged '2'; any other value, including null and NaN, is kept with '1'. */
  function ToMeasure(v: Num, limit: Option<Decimal>): (r: Measure)
    ensures var lim := if limit.Some? then limit.value else DefaultLimit;
      var big := Coerce(v).Some? && AtLeast(Coerce(v).value, lim);
      (big ==> r.unit == Text("2") && r.value.Val? && r.value.d == Thousandth(Coerce(v).value)) &&
      (!big ==> r == Measure(v, Text("1")))
  {
    var lim := if limit.Some? then limit.value else DefaultLimit;
    match Coerce(v)
    case Some(x) => if AtLeast(x, lim) then Measure(Val(Thousandth(x)), Text("2")) else Measure(v, Text("1"))
    case None => Measure(v, Text("1"))
  }

  /** A quantity held in thousandths renders exactly: its integer part in w
      digits (low-order ones kept on overflow), a comma, three decimals. */
  lemma FormatThousandths(u: nat, w: nat)
    ensures FormatNumber(Val(Decimal(u, 3)), w, 3) == PadDigits(u / 1000, w) + "," + PadDigits(u % 1000, 3)
  {
    FormatNumberDecimals(Val(Decimal(u, 3)), w, 3);
    RoundExact(Decimal(u, 3), 3);
    assert Pow10(0) == 1;
    assert RoundHalfUp(Decimal(u, 3), 3) == u;
    DivModPow10Value(u, 3);
    assert Pow10(3) == 1000;
  }

  /** A quantity in thousandths of a kilogram divided by 1000 (so in
      thousandths of a tonne plus three more decimals) renders rounded half
      up to whole thousandths of a tonne. */
  lemma FormatRescaled(u: nat, w: nat)
    ensures var t := (u + 500) / 1000;
      FormatNumber(Val(Decimal(u, 6)), w, 3) == PadDigits(t / 1000, w) + "," + PadDigits(t % 1000, 3)
  {
    FormatNumberDecimals(Val(Decimal(u, 6)), w, 3);
    RoundThousandths(u, 3);
    DivModPow10Value((u + 500) / 1000, 3);
    assert Pow10(3) == 1000;
  }

  /** Null, undefined, NaN and non-numeric text render as zero. */
  lemma FormatMissingNumber(v: Num, w: nat, f: nat)
    requires v.Null? || v.NaN? || (v.Text? && !AllDigits(v.s))
    requires w + f >= 1
    ensures FormatNumber(v, w, f) == if f > 0 then Zeros(w) + "," + Zeros(f) else Zeros(w)
  {
    FormatZeroValue(v, w, f);
  }

  /** Whatever converts to the number 0 renders as zeros. */
  lemma FormatZeroValue(v: Num, w: nat, f: nat)
    requires NumberValue(v) == Zero
    requires w + f >= 1
    ensures FormatNumber(v, w, f) == if f > 0 then Zeros(w) + "," + Zeros(f) else Zeros(w)
  {
    if f > 0 {
      FormatNumberDecimals(v, w, f);
      RoundZero(f);
      DivModPow10Value(0, f);
      PadDigitsOfZero(w);
      PadDigitsOfZero(f);
    } else {
      FormatNumberWhole(v, w);
      PadDigitsOfZero(w);
    }
  }

  lemma RoundZero(f: nat)
    ensures RoundHalfUp(Decimal(0, 0), f) == 0
  {
    RoundExact(Decimal(0, 0), f);
    MulPow10Value(0, f);
  }

  /** formattaNumero(null, 7, 3) and formattaNumero(undefined, 1). */
  lemma FormatNullExamples()
    ensures FormatNumber(Null, 7, 3) == "0000000,000"
    ensures FormatNumber(Null, 1, 0) == "0"
  {
    hide FormatNumber;
    FormatMissingNumber(Null, 7, 3);
    FormatMissingNumber(Null, 1, 0);
  }

  /** Overflow keeps the low-order digits: 123456 in three digits is 456. */
  lemma FormatOverflowExample()
    ensures FormatNumber(Val(Decimal(123456, 0)), 3, 0) == "456"
  {
    hide Suffix, NatDigits, JsString;
    FormatNumberWhole(Val(Decimal(123456, 0)), 3);
  }

  /** A numeric string formats like the number it spells: '003' is 3. */
  lemma FormatNumericText(s: string, w: nat, f: nat)
    requires AllDigits(s)
    ensures FormatNumber(Text(s), w, f) == FormatNumber(Val(Decimal(ParseDigits(s), 0)), w, f)
  {
  }

  /** 123456.1236 with seven integers and three decimals is 0123456,124. */
  lemma FormatRoundingExample(d: Decimal)
    requires d == Decimal(1234561236, 4)
    ensures FormatNumber(Val(d), 7, 3) == "0123456,124"
  {
    FormatNumberDecimals(Val(d), 7, 3);
    var n := RoundHalfUp(d, 3);
    assert FormatNumber(Val(d), 7, 3) == PadDigits(DivPow10(n, 3), 7) + "," + PadDigits(ModPow10(n, 3), 3);
    RoundingExampleValue(d);
    assert Pow10(3) == 1000;
    assert DivPow10(n, 3) == 123456;
    assert ModPow10(n, 3) == 124;
    RoundingExampleDigits();
  }

  lemma RoundingExampleDigits()
    ensures PadDigits(123456, 7) + "," + PadDigits(124, 3) == "0123456,124"
  {
    assert PadDigits(0, 1) == "0";
    assert PadDigits(1, 2) == "01";
    assert PadDigits(12, 3) == "012";
    assert PadDigits(123, 4) == "0123";
    assert PadDigits(1234, 5) == "01234";
    assert PadDigits(12345, 6) == "012345";
    assert PadDigits(123456, 7) == "0123456";
    assert PadDigits(1, 1) == "1";
    assert PadDigits(12, 2) == "12";
    assert PadDigits(124, 3) == "124";
  }

  lemma RoundingExampleValue(d: Decimal)
    requires d == Decimal(1234561236, 4)
    ensures RoundHalfUp(d, 3) == 123456124
  {
    var n := RoundHalfUp(d, 3);
    RoundHalfUpBounds(d, 3);
    assert Pow10(3) == 1000 && Pow10(4) == 10000;
    assert (2 * n as int - 1) * 10000 <= 2469122472000 < (2 * n + 1) * 10000;
  }
}
