# MUD export line builders, modelled in Dafny

The `export-mud` package writes the lines of the Italian MUD file, the yearly
waste declaration ("Modello Unico di Dichiarazione ambientale") that is filed
with the Chambers of Commerce. Each exported function builds one record line.
A line is a two-letter record tag followed by fixed-width fields, each ended
by `;`. It hands the line to a callback together with a flag that is raised
when the line's length differs from the length the layout prescribes.

This project models those line builders as pure Dafny functions and proves
properties about them:

* **Formatters** (module `Utils`): the four field formatters and the kg/tonne
  rescaling helper.
  * A JavaScript number is an exact decimal: `Decimal(units, scale)` means
    units / 10^scale.
  * A loose argument is a `Num`: null, NaN, a number, or a string.
  * Booleans are `Option<bool>`, where None stands for null or undefined.
  * Dates are `Option<DateTime>`.
* **Shared cells** (module `Fields`):
  * the declarant key: year, tax code, local unit;
  * CER waste-code cleaning;
  * the normalisation of the foreign nation;
  * the quantity cells (value plus unit of measure);
  * the counterpart block, the shipment block and the destination run;
  * the line-length report passed to the callback.
* **One module per builder file**:
  * `Anag`: AA, AB.
  * `Mud`: XX, the header line built in `index.js`.
  * `Rif`: BA, BB, BC, BD/BE.
  * `Int`: DA, DB.
  * `Mat`: MA.
  * `Vfu`: VC, VD, VE, VF, VG/VH.
  * `Imb`: IA, IB, IC, ID, IE/IF.

Every line is proved to have the length its builder checks. The properties
proved beyond that are:

* where each field sits in the line;
* which fields a sheet kind or attachment kind suppresses;
* the blanking of Italy as a foreign nation;
* the stripping of CER and ISTAT codes;
* the division by 1000 of quantities of ten million kg or more;
* the landfill kg rendered in tonnes;
* the XX total;
* formatter laws: widths, padding and cutting, low-order digits kept on
  overflow, round-half-up, upper-casing, and idempotence of the cleaners.

A few behaviours of the code are modelled as written, although a reader might
expect otherwise:

* **The TE transporter is dropped.** The generic VE and IC builders blank the
  counterpart for every attachment that is not RT. So the transporter passed
  by the TE wrappers never reaches the line (`Vfu.VfuTeIgnoresTransporter`,
  `Imb.ImbTeIgnoresCarrier`).
* **Some CER codes are written unstripped.** VD, VE, VF, IB, IC and ID write
  the CER as given: there is no stripping line in those builders.
* **String capacities concatenate.** The two capacities summed for the AB
  plant total are added with JavaScript `+`, so two strings concatenate
  (`Anag.PlantTextCapacities`).
* **IF is 264 characters.** The IE/IF pair is checked against
  238 + 2 + 264, as `imb.js:511` does; this model follows the code.
* **The default limit is ten million.** The doc comment of
  `getOggettoValoreUM` says the limit defaults to 1000; the code uses
  10 000 000 (`utils.js:83`), and so does the model.

## Model

| member | source | states |
|---|---|---|
| Utils.Coerce | export-mud/utils.js:32-33 | null is 0, a number is itself, NaN gives nothing, and a string is a number exactly when it is all digits, namely the number those digits spell |
| Utils.NumberValue | export-mud/utils.js:32-33 | null, NaN and non-numeric strings count as 0; otherwise the coerced value |
| Utils.RoundHalfUpBounds | export-mud/utils.js:36 | toFixed's rounding: the result r satisfies r - 1/2 <= value * 10^f < r + 1/2 |
| Utils.FormatNumber | export-mud/utils.js:31-39 | the field is exactly interi (+ decimali + 1) characters wide; with width 0 it is the whole number text |
| Utils.FormatNumberDecimals | export-mud/utils.js:35-38 | with decimals: the low-order interi digits of the rounded value, a comma, then decimali digits |
| Utils.FormatNumberWhole | export-mud/utils.js:35-37 | a whole value renders as its low-order interi digits, zero-padded |
| Utils.FormatThousandths | export-mud/utils.js:31-39 | a value in thousandths renders as its integer part, a comma and its three decimals, without rounding |
| Utils.FormatRescaled | export-mud/utils.js:85 | a kg value with three decimals, divided by 1000 and written with three decimals, is rounded half up to whole kg |
| Utils.FormatMissingNumber | export-mud/utils.js:32 | null, NaN and non-numeric text render as all zeros, with a comma when there are decimals |
| Utils.FormatNullExamples | export-mud/utils.js:32-38 | null renders as "0000000,000" at 7+3 and as "0" at width 1 |
| Utils.FormatOverflowExample | export-mud/utils.js:37 | 123456 in 3 digits keeps the low-order "456" |
| Utils.FormatNumericText | export-mud/utils.js:33 | a digit string formats like the number it denotes |
| Utils.FormatRoundingExample | export-mud/utils.js:36-38 | 123456.1236 at 7+3 renders "0123456,124" |
| Utils.RoundThousandths | export-mud/utils.js:36 | rounding to f decimals a value with f+3 decimals is (u + 500) div 1000 |
| Utils.RoundExact | export-mud/utils.js:36 | toFixed with at least as many decimals as the value has adds zeros and no rounding |
| Utils.ReplaceFirstAfterDigits | export-mud/utils.js:38 | replacing the first '.' after an all-digit prefix yields the decimal comma |
| Utils.Upper | export-mud/utils.js:51 | upper-casing never shortens the text and leaves no sharp s; without a sharp s it keeps the length and replaces each character by its Latin-1 capital (a-z and à-þ shift to A-Z and À-Þ, ÿ to Ÿ, µ to Μ) |
| Utils.UpperAppend | export-mud/utils.js:51 | upper-casing works character by character: it distributes over concatenation |
| Utils.UpperAccented | export-mud/utils.js:51 | "Città" is upper-cased to "CITTÀ" |
| Utils.UpperSharpS | export-mud/utils.js:51-52 | "ß" is upper-cased to "SS", so a field of width 1 holds "S": the text is cut after it has grown |
| Utils.FormatString | export-mud/utils.js:47-53 | null is empty; the value is upper-cased unless bypassed, then the upper-cased text is padded with blanks or cut to exactly the width |
| Utils.FormatBoolean | export-mud/utils.js:59-64 | one character, "1" exactly when the flag is true, otherwise "0" |
| Utils.FormatDate | export-mud/utils.js:71-74 | a missing date is blanks as wide as the pattern; a present date is all digits of the pattern's width |
| Utils.ToMeasure | export-mud/utils.js:81-92 | at or above the limit (10 000 000 when null or NaN) the value is divided by 1000 with unit "2"; otherwise value unchanged with unit "1" |
| Utils.ThousandthValue | export-mud/utils.js:85 | the result times 1000 equals the input, exactly |
| Utils.StripZeros | export-mud/utils.js:37 | Number-to-string drops exactly the trailing zeros of the fraction |
| Digits.ParsePadDigits | export-mud/utils.js:37 | the zero-padded w-digit field reads back as the value modulo 10^w |
| Digits.ParseNatDigits | export-mud/utils.js:37 | the decimal text of a natural number reads back as that number |
| Digits.PadDigitsOfSmall | export-mud/utils.js:37 | a number that fits is left-padded with zeros to the width |
| Fields.Report | export-mud/rif.js:96 | the callback receives the line and a flag raised exactly when the length differs from the expected one |
| Fields.Head | export-mud/mat.js:256-259 | the opening cells are 41 characters: the tag and ';', then the declarant key |
| Fields.SheetKey | export-mud/rif.js:59-64 | a sheet key is 53 characters: tag, declarant, sheet number and the stripped CER cell |
| Fields.SheetKeyRetag | export-mud/rif.js:416-457 | two keys that differ only in their tag agree after it |
| Fields.StripCode | export-mud/rif.js:47 | a string code keeps only its digits; a number or a missing code passes through |
| Fields.KeepDigits | export-mud/rif.js:47 | the result is all digits and no longer than the input |
| Fields.KeepDigitsAppend | export-mud/rif.js:47 | removing non-digits distributes over concatenation |
| Fields.KeepDigitsIdempotent | export-mud/rif.js:47 | stripping twice is stripping once |
| Fields.KeepDigitsOfDigits | export-mud/rif.js:47 | an all-digit code is left unchanged |
| Fields.KeepDigitsExample | export-mud/anag.js:51 | the activity code "38.21.09" is stripped to "382109" |
| Fields.CerCellStripped | export-mud/rif.js:47 | a code with six digits among separators is written as those six digits |
| Fields.RawCerCellSeparated | export-mud/vfu.js:456 | "16.01.04" unstripped is cut to "16.01."; stripped it is "160104" |
| Fields.RawCerCellOfDigits | export-mud/vfu.js:120 | for a clean six-digit code the raw and the stripped cell coincide |
| Fields.CodeString | export-mud/utils.js:48-50 | a missing code is null, a string is itself, a number becomes its digits |
| Fields.NormalizeNation | export-mud/rif.js:249-250 | the nation is upper-cased, and IT, ITALIA or ITALY (or none) becomes null |
| Fields.NormalizeNationIdempotent | export-mud/rif.js:249-250 | normalising a normalised nation changes nothing |
| Fields.UpperIdempotent | export-mud/utils.js:51 | upper-casing is idempotent |
| Fields.ItalyRendersBlank | export-mud/rif.js:250 | Italy in any letter case renders as 20 blanks |
| Fields.DivThousand | export-mud/rif.js:426 | the landfill kg divided by 1000: an exact thousandth of the value; NaN when it is not a number |
| Fields.LandfillTonnes | export-mud/rif.js:426 | a whole kg quantity in the landfill cell reads as its tonnes, with three decimals |
| Fields.QtyOfThousandths | export-mud/utils.js:84-86 | below 10 000 000 kg the quantity is written in kg with unit 1; at or above it in tonnes with unit 2 |
| Fields.QtySuppressed | export-mud/vfu.js:43 | a suppressed quantity (the `{}` object) renders as "0000000,000;0;" |
| Fields.QtyNull | export-mud/utils.js:32 | a null quantity renders as zero kg with unit 1 |
| Fields.KeptQtyCases | export-mud/vfu.js:43-51 | a quantity kept for its sheet kind renders normally, otherwise as the suppressed cells |
| Fields.FlagCellOf | export-mud/utils.js:59-64 | a flag cell is "1;" exactly when the flag is true, "0;" otherwise |
| Fields.BlankField | export-mud/utils.js:48 | null and empty strings render as blanks of the width |
| Fields.BlankPartyCells | export-mud/vfu.js:226 | a counterpart with cleared fields renders as blanks and zero ISTAT codes |
| Fields.QtyListAt | export-mud/rif.js:427-450 | the i-th cell pair of a run of quantities is the i-th quantity |
| Fields.CountCellsFiller | export-mud/imb.js:47 | the count block ends with the constant "0" field |
| Fields.ShipmentNation | export-mud/imb.js:273-274 | Italy in the shipment block is blank; another nation is written upper-cased |
| Fields.DestinationListAt | export-mud/vfu.js:355-393 | the i-th destination cells are the i-th destination's |
| Fields.DestinationsStorage | export-mud/vfu.js:394-397 | the destination block ends with the two storage quantities |
| Rif.Ba | export-mud/rif.js:40-99 | the BA line is 217 characters, the length its builder checks |
| Rif.BaLayout | export-mud/rif.js:59-93 | BA holds the tag, the stripped CER at 46, the physical state at 53 and the quantities after 67 |
| Rif.BaCerStripped | export-mud/rif.js:47 | the CER written in BA is the digits of the given code |
| Rif.Bb | export-mud/rif.js:231-288 | the BB line is 278 characters for every attachment kind |
| Rif.BbLayout | export-mud/rif.js:257-282 | BB holds the tag, the stripped CER, the attachment kind, the counterpart at 62..192 and the tail |
| Rif.BbTailLayout | export-mud/rif.js:272-282 | the tail holds the declared quantity, the normalised nation, the private flag and the abroad quantities |
| Rif.BbFromPrivates | export-mud/rif.js:241-251 | an RT from private persons has blank tax code and name, and the flag "1" |
| Rif.BbNamedParty | export-mud/rif.js:241-251 | DR, and RT not from private persons, write the counterpart as given; only RT writes the flag |
| Rif.BbTransporter | export-mud/rif.js:241-247 | a TE counterpart keeps only tax code and name; the flag cell is blank |
| Rif.BbAbroad | export-mud/rif.js:252-254 | the three abroad quantities are written only for DR with a foreign nation, else suppressed |
| Rif.BbItaly | export-mud/rif.js:250-254 | an Italian nation renders blank and suppresses the abroad quantities |
| Rif.RifRt | export-mud/rif.js:122-137 | an RT line is 278 characters and never carries abroad quantities |
| Rif.RifDr | export-mud/rif.js:162-177 | a DR line keeps the whole counterpart, and its private-flag cell is blank |
| Rif.RifTe | export-mud/rif.js:191-204 | a TE line is 278 characters |
| Rif.RifTeFixed | export-mud/rif.js:191-204 | a TE line has zero quantity, no nation and no regulation code, whatever the input |
| Rif.TeTail | export-mud/rif.js:197-203 | the TE tail is the zero quantity, blanks, a blank flag and suppressed abroad cells |
| Rif.Bc | export-mud/rif.js:305-332 | the BC line is 83 characters |
| Rif.BcLayout | export-mud/rif.js:315-326 | BC holds the activity digit at 67 and the quantity after it |
| Rif.BcActivity | export-mud/rif.js:324 | an activity 0..9 is written as that one digit |
| Rif.Mg | export-mud/rif.js:376-493 | the MG pair is BD, CR LF, BE: 245 + 2 + 268 characters |
| Rif.MgSameKey | export-mud/rif.js:416-457 | BD and BE share the key after their tags |
| Rif.BdLayout | export-mud/rif.js:416-450 | BD is the key, the landfill cells, then the 12 disposal quantities |
| Rif.BdLandfillTonnes | export-mud/rif.js:426 | the landfill kg is written in tonnes with three decimals |
| Rif.BdDisposalAt | export-mud/rif.js:427-450 | the i-th disposal quantity sits at 77 + 14i |
| Rif.BeLayout | export-mud/rif.js:451-487 | BE is the key then the recovery and storage quantities |
| Rif.BeRecoveryAt | export-mud/rif.js:458-487 | the i-th of the 13 recovery and 2 storage quantities sits at 58 + 14i |
| Int.Da | export-mud/int.js:30-62 | the DA line is 93 characters |
| Int.DaLayout | export-mud/int.js:40-56 | DA holds the tag, the stripped CER, the state, the brokered quantity and the two counts |
| Int.DaCerStripped | export-mud/int.js:36 | the CER in DA is the digits of the given code |
| Int.Db | export-mud/int.js:145-179 | the DB line is 221 characters for both unit kinds |
| Int.DbLayout | export-mud/int.js:157-173 | DB is the sheet key, the unit kind, then the body |
| Int.DbBodyLayout | export-mud/int.js:164-173 | the body holds the unit's cells, the normalised nation and the quantity |
| Int.DbKindsDiffer | export-mud/int.js:82-124 | UO and UD lines differ only in the kind cell |
| Int.DbNation | export-mud/int.js:152-153 | Italy renders blank; another nation renders upper-cased |
| Int.IntUo | export-mud/int.js:82-93 | the UO wrapper line is 221 characters |
| Int.IntUd | export-mud/int.js:113-124 | the UD wrapper line is 221 characters |
| Mat.Ma | export-mud/mat.js:224-309 | the MA line is 342 characters |
| Mat.MaLayout | export-mud/mat.js:256-303 | MA is the key, the sheet kind, then the body |
| Mat.MaCategory | export-mud/mat.js:232 | the WEEE category is kept only for TRA sheets and written "00" otherwise |
| Mat.MaLowerCaseTra | export-mud/mat.js:232 | the comparison is case-sensitive: "tra" is written "TRA" yet its category is zeroed |
| Mat.MaMaterialAt | export-mud/mat.js:262-303 | the i-th material quantity sits at 48 + 14i |
| Mat.MaBodyMaterials | export-mud/mat.js:261-303 | after the category the body is the run of material quantities |
| Mat.SameBody | export-mud/mat.js:232-303 | two non-TRA records with equal materials have the same body |
| Mat.RifMaterials | export-mud/mat.js:38-52 | the RIF sheet passes its 20 materials through and writes wood as 0 |
| Mat.MatRifPlaces | export-mud/mat.js:38-52 | in the line, wood is a zero quantity and every other material sits at its own place |
| Mat.MatRif | export-mud/mat.js:38-52 | the RIF materials line is 342 characters |
| Mat.VfuMaterials | export-mud/mat.js:151-164 | the vehicle sheets keep glass, iron, aluminium, copper, plastic, textile, rubber and other; the rest are 0 |
| Mat.MatVfu | export-mud/mat.js:69-133 | the AUT, FRA and ROT materials lines are 342 characters |
| Mat.MatVfuKindsDiffer | export-mud/mat.js:69-133 | AUT, FRA and ROT lines differ only in the sheet kind cell |
| Mat.MatVfuZero | export-mud/mat.js:159-163 | a material not in the vehicle list is a zero quantity |
| Mat.ImbMaterials | export-mud/mat.js:180-192 | the packaging sheet keeps glass, iron, aluminium, paper, plastic, wood and other; the rest are 0 |
| Mat.MatImb | export-mud/mat.js:180-192 | the IMB materials line is 342 characters |
| Mat.MatImbZero | export-mud/mat.js:185-191 | a material not in the packaging list is a zero quantity |
| Vfu.Vc | export-mud/vfu.js:34-92 | the VC line is 225 characters |
| Vfu.VcLayout | export-mud/vfu.js:55-86 | VC holds the sheet kind, the counts, own treatment, third-party treatment and the vehicle quantities |
| Vfu.VcFiller | export-mud/vfu.js:66 | the count block ends with the constant "0" field |
| Vfu.VcOwnBySheet | export-mud/vfu.js:43-45 | own disposal and material recovery only for FRA, own reuse only for AUT and ROT, suppressed otherwise |
| Vfu.VcVehiclesBySheet | export-mud/vfu.js:49-51 | the pre-1980, post-1980 and storage quantities only for AUT, suppressed otherwise |
| Vfu.VcLowerCaseKind | export-mud/vfu.js:43-51 | a lower-case kind is written upper-cased but suppresses every kind-specific quantity |
| Vfu.Vd | export-mud/vfu.js:106-128 | the VD line is 69 characters |
| Vfu.VdLayout | export-mud/vfu.js:114-122 | VD holds the section, the CER as given and the quantity |
| Vfu.Ve | export-mud/vfu.js:218-257 | the VE line is 235 characters for every attachment kind |
| Vfu.VeLayout | export-mud/vfu.js:232-251 | VE is the key, the private flag, the counterpart and the tail |
| Vfu.VeKeyLayout | export-mud/vfu.js:232-239 | the key holds the CER as given and the attachment kind |
| Vfu.VeFlag | export-mud/vfu.js:225-240 | the private flag is "1" exactly for RT from private persons, "0" otherwise |
| Vfu.VeAnonymous | export-mud/vfu.js:226 | TE, and RT from private persons, write a blank counterpart |
| Vfu.VeNamed | export-mud/vfu.js:226 | RT not from private persons writes the counterpart as given |
| Vfu.VeTransportTail | export-mud/vfu.js:225 | TE writes the quantity with blank nation and regulation code |
| Vfu.VeItaly | export-mud/vfu.js:228-229 | an Italian nation renders blank |
| Vfu.VfuRt | export-mud/vfu.js:152-165 | the RT wrapper line is 235 characters |
| Vfu.VfuRtFlag | export-mud/vfu.js:152-165 | the RT line carries the private flag "1" exactly when the vehicles came from private persons |
| Vfu.VfuTe | export-mud/vfu.js:181-193 | the TE wrapper line is 235 characters |
| Vfu.VfuTeIgnoresTransporter | export-mud/vfu.js:181-193 | two TE lines that differ only in the transporter are equal |
| Vfu.VfuTeFixed | export-mud/vfu.js:181-193 | the TE body is the fixed blank counterpart and the quantity |
| Vfu.Vf | export-mud/vfu.js:308-403 | the VF line is 466 characters |
| Vfu.VfLayout | export-mud/vfu.js:337-397 | VF is the key, the counterpart, the shipment and the 13 destinations with storage |
| Vfu.VfDestinationAt | export-mud/vfu.js:355-393 | the i-th destination quantity sits at 230 + 16i |
| Vfu.MgAsWritten | export-mud/vfu.js:446-563 | the VG/VH pair as written, with the CER never stripped: 242 + 2 + 268 characters |
| Vfu.Mg | export-mud/vfu.js:446-563 | the VG/VH pair with the CER stripped: the same layout and length |
| Vfu.VgLayout | export-mud/vfu.js:487-520 | VG is the key, the landfill cells, then the 12 disposal quantities |
| Vfu.VhLayout | export-mud/vfu.js:521-557 | VH is the key then the recovery and storage quantities |
| Vfu.MgSameKey | export-mud/vfu.js:487-527 | VG and VH share their key after the tag |
| Vfu.MgCerAt | export-mud/vfu.js:487-527 | both lines write the same CER cell at 45 |
| Vfu.MgCerStripped | export-mud/vfu.js:456 | with the stripping applied, both lines write the code's six digits |
| Vfu.MgAsWrittenKeepsSeparators | export-mud/vfu.js:456 | as written, "16.01.04" is cut to "16.01." instead of "160104" |
| Vfu.VgLandfillTonnes | export-mud/vfu.js:496 | the landfill kg is written in tonnes with three decimals |
| Vfu.VgDisposalAt | export-mud/vfu.js:497-520 | the i-th disposal quantity sits at 74 + 14i |
| Vfu.VhRecoveryAt | export-mud/vfu.js:528-557 | the i-th recovery or storage quantity sits at 58 + 14i |
| Imb.Ia | export-mud/imb.js:26-59 | the IA line is 123 characters |
| Imb.IaLayout | export-mud/imb.js:37-53 | IA holds the counts, the constant "0" field and the stock quantities |
| Imb.Ib | export-mud/imb.js:71-92 | the IB line is 65 characters |
| Imb.IbLayout | export-mud/imb.js:79-88 | IB holds the CER as given, the waste type and the quantity |
| Imb.Ic | export-mud/imb.js:177-214 | the IC line is 231 characters for every attachment kind |
| Imb.IcLayout | export-mud/imb.js:190-208 | IC is the key, the counterpart and the tail, after the non-RT blanking |
| Imb.IcKeyLayout | export-mud/imb.js:190-197 | the key holds the CER as given and the attachment kind |
| Imb.IcReceived | export-mud/imb.js:184 | an RT attachment is written as given |
| Imb.IcTransported | export-mud/imb.js:184 | a TE attachment has blank counterpart, nation and regulation code, and origin 0 |
| Imb.ImbRt | export-mud/imb.js:114-127 | the RT wrapper line is 231 characters |
| Imb.ImbTe | export-mud/imb.js:141-154 | the TE wrapper line is 231 characters |
| Imb.ImbTeIgnoresCarrier | export-mud/imb.js:141-154 | two TE lines that differ only in the carrier are equal |
| Imb.Id | export-mud/imb.js:264-358 | the ID line is 464 characters |
| Imb.IdLayout | export-mud/imb.js:292-352 | ID is the key, the counterpart with the packaging flag, the shipment and the destinations |
| Imb.IdPackagingFlag | export-mud/imb.js:299 | the flag is "1" exactly when the CER is 150104, as string or number, and "0" otherwise |
| Imb.IdCounterpartIsParty | export-mud/imb.js:298-305 | without the flag cell, the counterpart block is the counterpart's cells |
| Imb.IdDestinationAt | export-mud/imb.js:310-348 | the i-th destination quantity sits at 228 + 16i |
| Imb.MgAsWritten | export-mud/imb.js:400-514 | the IE/IF pair as written, with the CER never stripped: 238 + 2 + 264 characters |
| Imb.Mg | export-mud/imb.js:400-514 | the IE/IF pair with the CER stripped: the same layout and length |
| Imb.IeLayout | export-mud/imb.js:440-472 | IE is the key, the landfill cells, then the 12 disposal quantities |
| Imb.IfLayout | export-mud/imb.js:473-508 | IF is the key then the recovery and storage quantities |
| Imb.MgSameKey | export-mud/imb.js:440-478 | IE and IF share their key after the tag |
| Imb.MgCerAt | export-mud/imb.js:440-478 | both lines write the same CER cell at 41 |
| Imb.MgCerStripped | export-mud/imb.js:409 | with the stripping applied, both lines write the code's six digits |
| Imb.MgAsWrittenKeepsSeparators | export-mud/imb.js:409 | as written, "16.01.04" is cut to "16.01." instead of "160104" |
| Imb.IeLandfillTonnes | export-mud/imb.js:448 | the landfill kg is written in tonnes with three decimals |
| Imb.IeDisposalAt | export-mud/imb.js:449-472 | the i-th disposal quantity sits at 70 + 14i |
| Imb.IfRecoveryAt | export-mud/imb.js:479-508 | the i-th recovery or storage quantity sits at 54 + 14i |
| Anag.Aa | export-mud/anag.js:43-87 | the AA line is 338 characters |
| Anag.AaLayout | export-mud/anag.js:54-81 | AA holds the company block, the two addresses and the signature block |
| Anag.AaActivityAt | export-mud/anag.js:51-58 | the ISTAT activity cell is the stripped code |
| Anag.AaActivityStripped | export-mud/anag.js:51 | the activity written is the code's digits |
| Anag.AaActivityExample | export-mud/anag.js:51 | "38.21.09" is written "382109" in the activity cell |
| Anag.AaDatesAt | export-mud/anag.js:78-81 | the compilation date, the cancellation flag and the replaced-declaration date sit at 315, 327 and 329 |
| Anag.AaMissingDates | export-mud/anag.js:78-81 | missing dates are written as eight blanks |
| Anag.AaCancelFlag | export-mud/anag.js:80 | the cancellation flag is "1" exactly when it is true |
| Anag.JsPlus | export-mud/anag.js:162 | JavaScript +: a string operand concatenates texts; otherwise NaN propagates, and two numbers (null counting as 0) add exactly |
| Anag.AddDecimalExact | export-mud/anag.js:162 | the sum of two exact decimals is exact |
| Anag.JsPlusWhole | export-mud/anag.js:162 | two whole numbers add |
| Anag.Ab | export-mud/anag.js:127-184 | the AB line is 257 characters |
| Anag.AbLayout | export-mud/anag.js:142-177 | AB holds the counts, the certificates, the two plants and the five landfills |
| Anag.PlantLayout | export-mud/anag.js:161-164 | a plant is its flag, the total capacity, then the two capacities |
| Anag.PlantTotal | export-mud/anag.js:162 | whole capacities give a total that is their sum, and the fields read back additively when it fits nine digits |
| Anag.PlantTextCapacities | export-mud/anag.js:162 | capacities given as the strings "5" and "3" give the total 53 |
| Anag.PlantNoCapacity | export-mud/anag.js:162 | null capacities give a zero total |
| Anag.AbPlantsAt | export-mud/anag.js:162-166 | the two plant totals sit at 135 and 167 |
| Anag.AbLandfillAt | export-mud/anag.js:169-178 | the i-th landfill's class and tonnes sit at 197 + 12i |
| Mud.SumBound | export-mud/index.js:87 | each count is at most the total |
| Mud.SumIncrement | export-mud/index.js:87 | one more record of any type adds one to the total |
| Mud.CountField | export-mud/index.js:88-115 | a count field is the count zero-padded to its width |
| Mud.CountListAt | export-mud/index.js:88-115 | the i-th count cell holds the i-th count in five digits |
| Mud.Xx | export-mud/index.js:76-133 | the XX line is 482 characters |
| Mud.XxLayout | export-mud/index.js:82-127 | XX is the preamble, the 28 counts, the filler, the sender and the software name |
| Mud.XxPreambleLayout | export-mud/index.js:82-87 | the preamble is "6.00/14", file type "01", date, time and total |
| Mud.XxConstants | export-mud/index.js:83-127 | the release and file type, the "00000" filler and the upper-cased software name are constant |
| Mud.XxClock | export-mud/index.js:85-86 | the date cell comes from the first clock reading, the time cell from the second |
| Mud.XxCountAt | export-mud/index.js:88-115 | the count of the i-th record type sits at 39 + 6i |
| Mud.XxTotal | export-mud/index.js:87 | the total cell holds the sum of the counts in eight digits, read back modulo 10^8 |
| Mud.XxTotalOfFields | export-mud/index.js:87-115 | when nothing overflows, the total read back equals the sum of the count fields read back |
| Mud.NoLengthFlag | export-mud/index.js:129-132 | the XX builder never raises the length flag: the line has the 482 characters it is checked against |
| Anag.NoLengthFlag | export-mud/anag.js:84-181 | the AA and AB builders never raise the length flag (338 and 257 characters) |
| Rif.NoLengthFlag | export-mud/rif.js:96-490 | the BA, BB, BC and BD+BE builders never raise the length flag (217, 278, 83 and 245 + 2 + 268 characters) |
| Int.NoLengthFlag | export-mud/int.js:59-176 | the DA and DB builders never raise the length flag (93 and 221 characters) |
| Mat.NoLengthFlag | export-mud/mat.js:305-306 | the MA builder never raises the length flag (342 characters) |
| Vfu.NoLengthFlag | export-mud/vfu.js:89-560 | the VC, VD, VE, VF and VG+VH builders never raise the length flag (225, 69, 235, 466 and 242 + 2 + 268 characters) |
| Imb.NoLengthFlag | export-mud/imb.js:56-511 | the IA, IB, IC, ID and IE+IF builders never raise the length flag (123, 65, 231, 464 and 238 + 2 + 264 characters) |

## Left out

- Floating point: JavaScript numbers are modelled as exact decimals. `toFixed` is exact half-up rounding, and binary rounding artefacts are not modelled.
- Utils.FormatNumber: negative numbers are not modelled (values are non-negative decimals). In JavaScript the sign stays in the text before the slice, so `formattaNumero(-5, 3)` gives "0-5".
- Utils.FormatNumber: exponential notation is not modelled. `toString` and `toFixed` write values of 1e21 and above as "1e+21", and `toString` writes values below 1e-6 as "1e-7"; the model always writes plain digits.
- Utils.Upper: characters beyond Latin-1 are left unchanged. `toUpperCase` also maps Latin Extended, Greek, Cyrillic and other letters, and a few of them (such as ŉ, ǰ and the ligature ﬁ) to several characters.
- Utils.FormatString: widths count characters. JavaScript counts UTF-16 code units, which differ for characters beyond U+FFFF.
- Numeric strings other than plain digit strings (with a point, blanks, a sign or an exponent) are treated like non-numeric text. They render as zero.
- Booleans other than true, false, null and undefined (truthy numbers or strings) are not modelled.
- Utils.FormatDate: Moment.js is reduced to the numeric patterns the builders use, and years above 9999 are not modelled.
- Dates, times and the clock: `new Date()` in `index.js:85-86` is two clock readings, which become the two parameters of `Mud.Xx`.
- Mud.Xx: the 28 counts are natural numbers. Negative, fractional or missing counts are not modelled.
- Anag.JsText: null is rendered as "null"; an undefined operand, which JavaScript renders "undefined" and adds to NaN, is not distinguished from null.
- `util.format` is modelled as the concatenation of the fields, each followed by `;`. Arguments are always strings, so no other format directive applies.
- The fixed arities (5 landfills in AB, 12 disposal and 13 recovery quantities, 13 destinations, 20 materials for RIF) are preconditions on the sequence lengths. The JavaScript functions take them as separate parameters.
- The callback is not modelled as a call. `Fields.Report` is the pair it receives.
- The `raee` module required at `index.js:24` is not part of this model; neither are the module wiring (`require`/`exports`) or the documentation build scripts.
- A string passed where a number is expected in a quantity that is compared with the limit (`utils.js:84`) uses JavaScript's loose comparison; only digit strings are modelled.

## Findings

| source | as written | input that shows it | evidently intended | confidence | as-written member | corrected member |
|---|---|---|---|---|---|---|
| export-mud/vfu.js:456 | the CER is stripped only when `typeof(codIstatAttivita)` is a string; that name is not declared in the function, so the test is always false and the CER is never stripped | CER "16.01.04": the VG and VH lines write "16.01.;" | strip the CER like every other builder does (`typeof(codiceCER)`), writing "160104;" | not executed | Vfu.MgAsWrittenKeepsSeparators | Vfu.MgCerStripped |
| export-mud/imb.js:409 | the same guard on the undeclared `codIstatAttivita`: the CER is never stripped | CER "16.01.04": the IE and IF lines write "16.01.;" | strip the CER, writing "160104;" | not executed | Imb.MgAsWrittenKeepsSeparators | Imb.MgCerStripped |

`Vfu.MgAsWritten` and `Imb.MgAsWritten` model the pairs as written. `Vfu.Mg`
and `Imb.Mg` are the corrected definitions.
