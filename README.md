# Payment receipt generator, modelled in Dafny

The receipt generator of the Unova tools app (`src/utils/pdfGenerator.ts`) takes a receipt
record: the amount as displayed, a reference, a date string and the payee's name, PIX key,
bank and CPF. It composes a one-page payment receipt in Portuguese and saves it as
`recibo.pdf`. This project models that generator and its helpers, and proves what they
compute.

- `Chars` (`chars.dfy`): the `\D` digit filter of `formatCPF`, and an `Option` type. The
  amount module uses it only to state that the amount's digits are kept.
- `Cpf` (`cpf.dfy`): `formatCPF`.
  - Stripping the non-digits is followed by a non-global, unanchored replace of
    `(\d{3})(\d{3})(\d{3})(\d{2})`.
  - That replace is modelled as a leftmost-match search followed by the `$1.$2.$3-$4` grouping.
- `Amount` (`amount.dfy`): the clean-up of the amount before `parseFloat`.
  - Keep only digits and commas.
  - Replace the first comma with a point. A string pattern replaces only its first occurrence.
- `DateFormat` (`date.dfy`): `formatDate`, which gives "{day} de {month} de {year}" from calendar
  components or "NaN de undefined de NaN" for an invalid date. It comes with a reader that
  inverts it.
- `Receipt` (`receipt.dfy`): `generateReceiptPDF` as an imperative method.
  - The method does the following:
    - checks the presence guard;
    - moves a vertical cursor `yPos` down the page by the eight advances of `Receipt.Advances`;
    - sets the font before each styled run;
    - places each later run of a mixed-weight line at the left margin plus widths it measures
      with the font that is current at the measuring call;
    - issues its drawing calls on a surface, which is an append-only log of commands ending
      in the save.
  - Invariants preserved over the surface:
    - each command is drawn at or below the one before it;
    - every left-aligned line starts at the margin;
    - nothing is saved before the end.
- `Placement` (`placement.dfy`): fonts, the measurement table, and the offsets of the two
  mixed-weight lines, both as the code computes them and end to end (see Findings).

The generator's outside world is a `Host` value, passed in as a parameter:
- the page width;
- the text measurement, as a table from font and text to width;
- whether the logo was fetched and decoded;
- the number of lines the legal text wraps to;
- the amount in words for each normalised amount, where a missing entry is a conversion
  that throws;
- the calendar components of each date string that parses.

Two layout facts of the code, both stated by the model:
- The amount in words is not part of the "Recebi(emos) de …" sentence. It is drawn on a line
  of its own, 7 units below it, and " referente …" is drawn 7 units further down (lines 84-93).
- On the reference line and the bank line, some offsets are measured in a font other than the
  one the measured run is drawn in. `Receipt.DrawReferenceLine` and `Receipt.DrawBankLine`
  draw these offsets as the code computes them. The end-to-end placement is kept as separate
  members `Receipt.DrawReferenceLineEndToEnd` and `Receipt.DrawBankLineEndToEnd` (see Findings).

## Model

| member | source | states |
|---|---|---|
| Chars.Digits | src/utils/pdfGenerator.ts:158 | the digit filter yields only digits, is no longer than its input, and leaves a digit string unchanged |
| Chars.DigitsAppend | src/utils/pdfGenerator.ts:158 | filtering digits distributes over concatenation |
| Cpf.FirstMatch | src/utils/pdfGenerator.ts:159 | the unanchored mask's match position is the leftmost one: eleven digits start there and at no earlier position |
| Cpf.Group | src/utils/pdfGenerator.ts:159 | the `$1.$2.$3-$4` replacement of one eleven-digit match; its meaning (exactly those digits, in the DDD.DDD.DDD-DD shape) is stated by Cpf.DigitsOfGroup and Cpf.FormatCpfExact |
| Cpf.ReplaceFirstMatch | src/utils/pdfGenerator.ts:159 | the non-global replace: the leftmost match is grouped and the rest of the string is copied; stated by Cpf.FormatCpfShort and Cpf.FormatCpfLong |
| Cpf.FormatCpf | src/utils/pdfGenerator.ts:157-160 | `formatCPF` itself, the digit filter followed by the replace; stated by Cpf.FormatCpfExact, Cpf.FormatCpfShort, Cpf.FormatCpfLong, Cpf.FormatCpfKeepsDigits and Cpf.FormatCpfIdempotent |
| Cpf.MatchAtStart | src/utils/pdfGenerator.ts:159 | on a digit string the mask matches at position 0 exactly when there are at least eleven digits |
| Cpf.DigitsOfGroup | src/utils/pdfGenerator.ts:159 | the `$1.$2.$3-$4` grouping of eleven digits holds exactly those digits in order |
| Cpf.FormatCpfExact | src/utils/pdfGenerator.ts:157-160 | exactly eleven digits give a 14-character DDD.DDD.DDD-DD whose digits are the input's digits in order |
| Cpf.FormatCpfShort | src/utils/pdfGenerator.ts:158-159 | fewer than eleven digits: the mask does not match and the bare digits are returned |
| Cpf.FormatCpfLong | src/utils/pdfGenerator.ts:158-159 | eleven or more digits: the first eleven are grouped and the remaining digits follow unchanged |
| Cpf.FormatCpfKeepsDigits | src/utils/pdfGenerator.ts:158-159 | stripping the non-digits from the output gives exactly the digits of the input |
| Cpf.FormatCpfIdempotent | src/utils/pdfGenerator.ts:157-160 | formatting a formatted CPF changes nothing |
| Cpf.FormatCpfExample | src/utils/pdfGenerator.ts:157-160 | "12345678901" displays as "123.456.789-01" |
| Cpf.FormatCpfPreformattedExample | src/utils/pdfGenerator.ts:157-160 | "123.456.789-01" comes back unchanged |
| Amount.KeepDigitsAndCommas | src/utils/pdfGenerator.ts:63 | the filtered amount holds only digits and commas, is no longer than the input, and a string made only of digits and commas comes back unchanged |
| Amount.KeepDigitsAndCommasAppend | src/utils/pdfGenerator.ts:63 | the filter distributes over concatenation, so the kept characters keep their order |
| Amount.KeepDigitsAndCommasOfUnkept | src/utils/pdfGenerator.ts:63 | a string with no digit and no comma filters to the empty string |
| Amount.KeepDigitsAndCommasCounts | src/utils/pdfGenerator.ts:63 | every digit and every comma survives as often as it occurs in the input, and every other character occurs zero times |
| Amount.KeepDigitsAndCommasHasComma | src/utils/pdfGenerator.ts:63 | the filtered string has a comma exactly when the input has one |
| Amount.FirstComma | src/utils/pdfGenerator.ts:63 | the index found is a comma with no comma before it; when there is none, the string has no comma |
| Amount.ReplaceFirstComma | src/utils/pdfGenerator.ts:63 | `replace(',', '.')`, the string-pattern replace of the first comma only; stated by Amount.ReplaceFirstCommaAt and Amount.ReplaceFirstCommaPointwise |
| Amount.NormalizeAmount | src/utils/pdfGenerator.ts:63 | the whole clean-up before `parseFloat`; stated by Amount.NormalizeAmountShape, Amount.NormalizeAmountOnePoint, Amount.NormalizeAmountRestores and Amount.NormalizeAmountDigits |
| Amount.ReplaceFirstCommaAt | src/utils/pdfGenerator.ts:63 | the replace turns exactly the first comma into a point and leaves a comma-free string unchanged |
| Amount.ReplaceFirstCommaPointwise | src/utils/pdfGenerator.ts:63 | character by character: a point at the first comma's index, every other character copied, length unchanged |
| Amount.NormalizeAmountShape | src/utils/pdfGenerator.ts:63 | the normalised amount has the filtered length and holds only digits, commas and points; a point is exactly at the first comma's index, and every other character is unchanged |
| Amount.NormalizeAmountOnePoint | src/utils/pdfGenerator.ts:63 | the normalised amount holds at most one point |
| Amount.NormalizeAmountRestores | src/utils/pdfGenerator.ts:63 | turning the point back into a comma recovers the filtered string |
| Amount.NormalizeAmountDigits | src/utils/pdfGenerator.ts:63 | the normalised amount's digits are the input's digits in their original order |
| Amount.KeepDigitsAndCommasDigits | src/utils/pdfGenerator.ts:63 | the filter keeps every digit of the input, in order |
| Amount.CommaToPointKeepsDigits | src/utils/pdfGenerator.ts:63 | turning a comma into a point changes no digit |
| Amount.KeepDigitsAndCommasExample | src/utils/pdfGenerator.ts:63 | "R$ 1.234,56" filters to "1234,56" |
| Amount.ReplaceFirstCommaExample | src/utils/pdfGenerator.ts:63 | "1234,56" becomes "1234.56" |
| Amount.NormalizeAmountExample | src/utils/pdfGenerator.ts:63 | "R$ 1.234,56" is normalised to "1234.56" |
| DateFormat.NatText | src/utils/pdfGenerator.ts:154 | a number's decimal text is a non-empty digit string whose first digit is 0 exactly when the number is 0, and a single digit below 10, so there is no leading zero |
| DateFormat.IntText | src/utils/pdfGenerator.ts:154 | the text a template literal gives an integer component: a minus sign for negatives, then the digits; stated by DateFormat.ParseIntText and DateFormat.IntTextHasNoSpace |
| DateFormat.ParseIntText | src/utils/pdfGenerator.ts:154 | reading back the decimal text of an integer gives that integer |
| DateFormat.IntTextHasNoSpace | src/utils/pdfGenerator.ts:154 | an integer's text has no space; it opens with a minus sign exactly when the integer is negative and with 0 exactly when it is 0 |
| DateFormat.MonthOfName | src/utils/pdfGenerator.ts:150-153 | each of the twelve month names is found at its own index |
| DateFormat.FormatDate | src/utils/pdfGenerator.ts:150-154 | `formatDate` on calendar components: "{day} de {month} de {year}" with the name from the twelve-entry table; stated by DateFormat.ParseFormatDate and DateFormat.FormatDateInjective |
| DateFormat.DateText | src/utils/pdfGenerator.ts:148-155 | `formatDate` on what `new Date` gave: the long date for a valid date, "NaN de undefined de NaN" for an invalid one; stated by DateFormat.ValidDateIsNotInvalidText |
| DateFormat.ParseFormatDate | src/utils/pdfGenerator.ts:148-155 | the long date "{day} de {month} de {year}" reads back as exactly its day, month index and year |
| DateFormat.FormatDateInjective | src/utils/pdfGenerator.ts:150-154 | different calendar dates give different long dates |
| DateFormat.ValidDateIsNotInvalidText | src/utils/pdfGenerator.ts:149-154 | a valid date never renders as the text of an invalid one |
| DateFormat.FormatDateExample | src/utils/pdfGenerator.ts:148-155 | 5 March 2024 renders as "5 de março de 2024" |
| DateFormat.FormatDateTwoDigitDayExample | src/utils/pdfGenerator.ts:148-155 | 15 January 2024 renders as "15 de janeiro de 2024" |
| Receipt.Advances | src/utils/pdfGenerator.ts:48-131 | the eight `yPos +=` steps in order: 25 (line 48), 15, 20, 25, 7n + 15 (line 101), 10, 15 and 25 (line 131); stated by Receipt.CursorIncreases and Receipt.CursorPositions |
| Receipt.CursorAt | src/utils/pdfGenerator.ts:28-131 | `yPos` after the first k steps, from 20 at line 28; stated by Receipt.CursorIncreases and Receipt.CursorPositions |
| Receipt.CursorIncreases | src/utils/pdfGenerator.ts:28-131 | every one of the eight cursor advances moves `yPos` strictly down |
| Receipt.CursorPositions | src/utils/pdfGenerator.ts:28-134 | the cursor reaches 80 at the acknowledgement, 105 at the legal text, 120+7n at the payee, 130+7n at the bank line, 145+7n at the place and date, and 170+7n at the signature rule |
| Receipt.HasRequiredData | src/utils/pdfGenerator.ts:18-21 | the presence guard: a payee and non-empty amount, reference and date; Receipt.GenerateReceipt states that it decides between no output and a receipt |
| Receipt.AmountInWords | src/utils/pdfGenerator.ts:63-64 | `extenso(parseFloat(...))` on the normalised amount, or none when the conversion throws; a lookup in the host standing for the foreign calls listed under Left out; Receipt.GenerateReceipt states that it decides the result |
| Receipt.DateOf | src/utils/pdfGenerator.ts:149 | the calendar components `new Date(dateString)` yields, or an invalid date; a lookup in the host standing for the foreign call listed under Left out; DateFormat.DateText formats it |
| Receipt.Draw | src/utils/pdfGenerator.ts:73 | a drawing call that is not above the previous command, and that starts at the margin when it opens a left-aligned line, appends exactly its command to the log and keeps everything drawn before |
| Receipt.DrawingLayout | src/utils/pdfGenerator.ts:73-138 | a surface drawn call by call is top to bottom, its left-aligned lines start at the margin, and it holds no save |
| Receipt.AbutsLayout | src/utils/pdfGenerator.ts:73-81 | on a surface where every continuing run starts at the end of the previous run, measured in that run's font, the command log's runs abut |
| Receipt.SaveEndsDrawing | src/utils/pdfGenerator.ts:140 | appending the save keeps the layout and leaves the save as the single last command |
| Receipt.Heading | src/utils/pdfGenerator.ts:28-60 | the logo (when loaded), title and amount commands; stated by Receipt.DrawHeading and Receipt.HeadingLaidOut |
| Receipt.DrawHeading | src/utils/pdfGenerator.ts:28-60 | the logo (only when loaded), the title at 45 and the amount at 60, centred, in that order; the cursor it returns is the one after the first three advances, 80 |
| Receipt.HeadingLaidOut | src/utils/pdfGenerator.ts:28-64 | the heading, which is all that a throwing conversion leaves, is laid out and not saved |
| Receipt.PaymentLine | src/utils/pdfGenerator.ts:73-81 | the three runs of the sentence line, each after the previous one measured in its own font; Receipt.DrawPaymentLine draws it |
| Receipt.ReferenceLine | src/utils/pdfGenerator.ts:87-93 | the three runs of the reference line at the offsets the code measures (Placement.WrittenReferenceOffsets); Receipt.DrawReferenceLine draws it |
| Receipt.PayeeLine | src/utils/pdfGenerator.ts:104-107 | the label and the bold full name after the label's normal width; Receipt.DrawPayeeLine draws it |
| Receipt.BankLine | src/utils/pdfGenerator.ts:112-122 | the six runs of the bank line at the offsets the code measures (Placement.WrittenBankOffsets); Receipt.DrawBankLine draws it |
| Receipt.PlaceAndDate | src/utils/pdfGenerator.ts:126-130 | the bold city and ", {date}" after the city's bold width; Receipt.DrawPlaceAndDate draws it |
| Receipt.Signature | src/utils/pdfGenerator.ts:133-138 | the rule and the centred name and CPF lines; Receipt.DrawSignature draws it |
| Receipt.DrawPaymentLine | src/utils/pdfGenerator.ts:67-81 | appends exactly the sentence line's runs: "Recebi(emos) de ", the company in bold and the CNPJ clause, each starting where the previous one ends in its own font; runs that abutted still abut |
| Receipt.DrawReferenceLine | src/utils/pdfGenerator.ts:86-93 | appends exactly: " referente " at the margin, the bold reference at the margin plus " referente " measured in bold, and "." at the margin plus " referente " and the reference measured in the normal weight |
| Receipt.DrawReferenceLineEndToEnd | src/utils/pdfGenerator.ts:86-93 | the reference line with each run starting where the previous one ends in its own font; runs that abutted still abut |
| Receipt.DrawPayeeLine | src/utils/pdfGenerator.ts:103-107 | appends exactly "Pagamento recebido por: " and the bold full name right after it |
| Receipt.DrawBankLine | src/utils/pdfGenerator.ts:110-122 | appends exactly the six runs of "Chave PIX: {key} - Banco {bank}" at the offsets the code measures: "Chave " in bold, "Chave PIX" in the normal weight, "Chave PIX: " in bold, "Chave PIX: " and the key in the normal weight, and "Chave PIX: ", the key and " - " in bold |
| Receipt.DrawPixLabel | src/utils/pdfGenerator.ts:112-116 | appends exactly "Chave " at the margin, the bold "PIX" at the margin plus "Chave " measured in bold, and ": " at the margin plus "Chave PIX" measured in the normal weight |
| Receipt.DrawBankLineEndToEnd | src/utils/pdfGenerator.ts:110-122 | the six runs of the bank line with each run starting where the previous one ends in its own font; runs that abutted still abut |
| Receipt.DrawPixLabelEndToEnd | src/utils/pdfGenerator.ts:112-116 | the first three runs of the corrected bank line, "Chave ", bold "PIX" and ": ", each starting where the previous one ends in its own font; runs that abutted still abut |
| Receipt.DrawPlaceAndDate | src/utils/pdfGenerator.ts:125-130 | appends exactly the bold city and ", {date}" right after it |
| Receipt.DrawSignature | src/utils/pdfGenerator.ts:133-138 | appends exactly the rule across the text width at y, the bold name centred at y+10 and "CPF {formatted}" centred at y+20 |
| Receipt.DrawAcknowledgement | src/utils/pdfGenerator.ts:66-101 | from the cursor at 80 it appends exactly: the sentence line at y, the amount in words at y+7, the reference line at y+14, and the justified legal text at the cursor after the fourth advance, 105; it returns the cursor after the legal text |
| Receipt.DrawPayee | src/utils/pdfGenerator.ts:103-123 | it appends exactly the payee line at y and the bank line at the cursor after the next advance, and returns the cursor after the bank line |
| Receipt.DrawClosing | src/utils/pdfGenerator.ts:125-138 | it appends exactly five commands: the bold city at y, ", {date}" after the city's width, the rule 25 below at the cursor after the last advance, the bold name 10 below it and the CPF 20 below it |
| Receipt.Saved | src/utils/pdfGenerator.ts:140 | the saved log ends in its single save, is laid out top to bottom with margin-aligned lines and opens with the heading's first command |
| Receipt.ReceiptLog | src/utils/pdfGenerator.ts:28-140 | the whole log of a successful run in order: heading; sentence line at 80, words at 87, reference line at 94 (as the code measures it); legal text at 105; payee line at 120+7n, bank line at 130+7n (as the code measures it), place and date at 145+7n, signature block from 170+7n; save |
| Receipt.PhasesMakeReceiptLog | src/utils/pdfGenerator.ts:48-131 | the commands the three phases append at the cursor positions they reach are exactly the receipt log, with the cursor at 80, 105, 120+7n, 130+7n, 145+7n and 170+7n |
| Receipt.CompleteReceipt | src/utils/pdfGenerator.ts:62-141 | from the heading and the cursor at 80, everything after a successful conversion yields exactly the receipt log, which is a completed receipt |
| Receipt.GenerateReceipt | src/utils/pdfGenerator.ts:16-146 | true exactly when the guard passes and the conversion succeeds; a failed guard draws nothing; a failed conversion leaves only the heading, unsaved; success issues exactly the receipt log (reference and bank lines as the code measures them), saved once at the end, laid out and opened by the heading |
| Placement.TextWidth | src/utils/pdfGenerator.ts:74-128 | `getTextWidth` in a given font, the measuring calls at lines 74, 78, 90, 93, 105, 114-122 and 128; a lookup in the host's measurement table standing for the foreign call listed under Left out |
| Placement.WrittenReferenceOffsets | src/utils/pdfGenerator.ts:87-93 | the three offsets of the reference line as the code measures them, one per run, the first at the margin |
| Placement.ReferenceRuns | src/utils/pdfGenerator.ts:87-93 | the text and weight of each run of the reference line: " referente " normal, the reference bold, "." normal; Placement.WrittenReferenceAbuttingIff and Placement.ReferenceOffsets state its placement |
| Placement.ReferenceOffsets | src/utils/pdfGenerator.ts:87-93 | the end-to-end offsets of the reference line: each run starts where the previous one ends in its own font |
| Placement.WrittenReferenceAbuttingIff | src/utils/pdfGenerator.ts:87-93 | the offsets as written place the runs end to end if and only if " referente " and the reference are as wide in bold as in the normal weight |
| Placement.WrittenReferenceIsEndToEndIff | src/utils/pdfGenerator.ts:87-93 | the offsets as written are the end-to-end offsets if and only if both texts are as wide in bold as in the normal weight |
| Placement.WrittenBankOffsets | src/utils/pdfGenerator.ts:112-122 | the six offsets of the bank line as the code measures them, including "Chave PIX" measured as one string |
| Placement.BankRuns | src/utils/pdfGenerator.ts:112-122 | the text and weight of each run of the bank line: "Chave " normal, "PIX" bold, ": " normal, the key bold, " - " normal, "Banco {bank}" bold; Placement.BankOffsets and Placement.WrittenBankIsEndToEndIff state its placement |
| Placement.BankOffsets | src/utils/pdfGenerator.ts:112-122 | the end-to-end offsets of the bank line: each run starts where the previous one ends in its own font |
| Placement.WrittenBankAbuttingWhen | src/utils/pdfGenerator.ts:112-122 | when the fixed pieces and the key are as wide in bold as in the normal weight, and "Chave PIX" and "Chave PIX: " measure as the sum of their pieces, the offsets as written are the end-to-end ones |
| Placement.WrittenBankIsEndToEndIff | src/utils/pdfGenerator.ts:112-122 | the bank offsets as written are the end-to-end ones if and only if they place the runs end to end |
| Placement.WrittenReferenceExample | src/utils/pdfGenerator.ts:90-93 | with bold glyphs twice as wide, the reference starts 11 units past " referente ", the full stop lands 10 units before the reference, and the line is not end to end |
| Placement.WrittenBankExample | src/utils/pdfGenerator.ts:114-116 | with bold glyphs twice as wide (no width negative), ": " is drawn 3 units left of where "PIX" starts, so the offsets as written decrease along the line, and the line is not end to end |
| Placement.AbuttingUnique | src/utils/pdfGenerator.ts:73-122 | end-to-end offsets for a sequence of runs are unique |
| Placement.AbuttingMonotone | src/utils/pdfGenerator.ts:73-122 | when no text measures a negative width, end-to-end offsets never decrease along the line |
| Placement.EndToEndOffsetsIncrease | src/utils/pdfGenerator.ts:87-122 | the end-to-end offsets of the reference line and of the bank line never decrease along the line, for any non-negative widths |

## Left out

- jsPDF: the document object, `setFont`/`setFontSize`, the rendering of text, images and lines, and `save`. The model records each call as a command on an append-only surface.
- `getTextWidth` is the host's measurement table: a text the table does not list measures zero. Glyph metrics are not modelled.
- Widths, x offsets and `pageWidth / 2` are exact reals in the model, whereas jsPDF computes them in IEEE double precision. No stated property depends on the rounding.
- `splitTextToSize`: only the number of lines the legal text wraps to is modelled, as a host parameter. The wrapped lines themselves are not: the legal-text command records the unsplit text, its line count and the wrap width.
- The logo download and `FileReader` decode (network, asynchronous callbacks) are reduced to whether the logo was loaded. Receipt.GenerateReceipt covers a logo that loads and a failure that rejects before `onloadend` runs (lines 33-36). It does not cover a run that never returns. That happens when the fetch never settles, or when `doc.addImage` throws inside `onloadend` (lines 38-41): the body is not a PNG image, e.g. an error page, or `reader.result` is null after a read error. `resolve(true)` is then never called, so the awaited promise never settles.
- `extenso` and `parseFloat` are one host table from the normalised amount to its words. A missing entry is a conversion that throws, which makes the generator return false with nothing saved.
- `new Date(...)` and the local-timezone `getDate`/`getMonth`/`getFullYear` are a host table from date string to calendar components. A missing entry is an invalid date, so a valid date string is not checked against the calendar.
- Exceptions thrown from inside jsPDF while composing are not modelled. Only the conversion's exception is.
- `console.error` diagnostics are left out: they are output only.
- Placement.WrittenBankAbuttingWhen: gives a sufficient condition for the bank line as written to be end to end, not an if-and-only-if. `Placement.WrittenBankIsEndToEndIff` gives the exact condition in terms of the offsets.
- The receipt's other screens (payee list, dashboard, sidebar, login, routing) are not part of this model. They hold no logic of the generator.

## Findings

| source | as written | input that shows it | evidently intended | confidence | as-written member | corrected member |
|---|---|---|---|---|---|---|
| src/utils/pdfGenerator.ts:90-93 | the reference's offset measures " referente " in bold, the font just set for the reference; the full stop's offset measures the reference in the normal weight | any reference in a font whose bold glyphs are wider, e.g. every glyph 1 unit normal and 2 units bold with reference "x": the reference starts 11 units past the end of " referente " and the full stop lands 10 units before the reference | each run starts where the previous one, measured in its own font, ends | not executed; follows from the measuring calls as written | Placement.WrittenReferenceExample | Receipt.DrawReferenceLineEndToEnd |
| src/utils/pdfGenerator.ts:114-122 | the offsets measure "Chave " in bold, "Chave PIX" in the normal weight and "Chave PIX: " in bold, and the key and " - " in whatever font is current | the same widths: "PIX" is drawn 12 units right of the margin but ": " at 9, before it on the line | the six runs end to end, each measured in its own font | not executed; follows from the measuring calls as written | Placement.WrittenBankExample | Receipt.DrawBankLineEndToEnd |

The generator itself (`Receipt.GenerateReceipt`) draws both lines as the code does: on success
its log is `Receipt.ReceiptLog`, which holds `Receipt.ReferenceLine` and `Receipt.BankLine` at the
offsets the code measures. With non-negative widths, `Placement.EndToEndOffsetsIncrease` shows
that the end-to-end offsets never decrease along a line, and `Placement.WrittenBankExample` shows
that the bank offsets as written can. The corrected members draw each run
where the previous run, measured in its own font, ends, and keep the property `Receipt.Abuts`
of the surface. `Receipt.AbutsLayout` turns that property into `RunsAbut` for the command log.
`Placement.AbuttingUnique` shows that the end-to-end placement is the only one.
`Placement.WrittenReferenceIsEndToEndIff` shows that the reference line as written is end to
end exactly when " referente " and the reference are as wide in bold as in the normal weight.
`Placement.WrittenBankAbuttingWhen` shows the same for the bank line when its pieces are as wide
in both weights and the prefixes "Chave PIX" and "Chave PIX: " measure as the sum of their pieces.
