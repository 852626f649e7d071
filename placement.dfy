/**
 * Fonts, text measurement and the horizontal placement of styled runs. The generator places
 * each run of a mixed-weight line at an offset it measures with `getTextWidth`, which measures
 * in whatever font was set last; on the reference line and the bank line that is not always
 * the font the measured text is drawn in, and the bank line measures whole prefixes such as
 * "Chave PIX: ". This module states those offsets as written, the end-to-end offsets at which
 * every run starts where the previous run, measured in its own font, ends, and how they relate.
 */
module Placement {

  datatype Weight = Normal | Bold

  datatype Font = Font(weight: Weight, size: nat)

  /**
   * The host's text measurement (`getTextWidth` in a given font), as a table from font and
   * text to width; a text the table does not list measures zero.
   */
  type Metrics = imap<(Font, string), real>

  function TextWidth(m: Metrics, f: Font, s: string): real {
    if (f, s) in m then m[(f, s)] else 0.0
  }

  const LeftMargin: real := 20.0

  const Body: nat := 12

  /** Helvetica at the body size, in the two weights the receipt uses. */
  const BodyNormal: Font := Font(Normal, Body)
  const BodyBold: Font := Font(Bold, Body)

  const Referring: string := " referente "

  /** A run of text and the font it is drawn in. */
  datatype Run = Run(text: string, font: Font)

  /** The offsets `xs` place `runs` end to end from the left margin. */
  predicate Abutting(m: Metrics, runs: seq<Run>, xs: seq<real>) {
    |xs| == |runs| && (|xs| > 0 ==> xs[0] == LeftMargin) &&
    forall k :: 0 <= k < |xs| - 1 ==> xs[k + 1] == xs[k] + TextWidth(m, runs[k].font, runs[k].text)
  }

  /** Every text measures a non-negative width in every font. */
  ghost predicate NonNegativeWidths(m: Metrics) {
    forall f: Font, s: string :: TextWidth(m, f, s) >= 0.0
  }

  /** Offsets that place runs end to end never decrease along the line when no width is negative. */
  lemma {:induction false} AbuttingMonotone(m: Metrics, runs: seq<Run>, xs: seq<real>, i: nat, j: nat)
    requires Abutting(m, runs, xs) && NonNegativeWidths(m) && i <= j < |xs|
    ensures xs[i] <= xs[j]
  {
    if i < j {
      AbuttingMonotone(m, runs, xs, i, j - 1);
      assert xs[j] == xs[j - 1] + TextWidth(m, runs[j - 1].font, runs[j - 1].text);
    }
  }

  /** The width of `s` is the same in both weights. */
  predicate WeightBlind(m: Metrics, s: string) {
    TextWidth(m, BodyBold, s) == TextWidth(m, BodyNormal, s)
  }

  /** " referente {reference}." with the reference in bold (lines 87-93). */
  function ReferenceRuns(reference: string): seq<Run> {
    [Run(Referring, BodyNormal), Run(reference, BodyBold), Run(".", BodyNormal)]
  }

  /**
   * The offsets as written: the reference is placed after " referente " measured in bold,
   * the font current at line 90, and the full stop after both measured in the normal weight
   * current at line 93.
   */
  function WrittenReferenceOffsets(m: Metrics, reference: string): (xs: seq<real>)
    ensures |xs| == |ReferenceRuns(reference)| && xs[0] == LeftMargin
  {
    [LeftMargin,
     LeftMargin + TextWidth(m, BodyBold, Referring),
     LeftMargin + TextWidth(m, BodyNormal, Referring) + TextWidth(m, BodyNormal, reference)]
  }

  /** The reference line end to end: each run after the previous one in its own font. */
  function ReferenceOffsets(m: Metrics, reference: string): (xs: seq<real>)
    ensures Abutting(m, ReferenceRuns(reference), xs)
  {
    var x1 := LeftMargin + TextWidth(m, BodyNormal, Referring);
    [LeftMargin, x1, x1 + TextWidth(m, BodyBold, reference)]
  }

  /**
   * The offsets the generator writes for the reference line place its runs end to end
   * exactly when " referente " and the reference are as wide in bold as in the normal weight.
   */
  lemma WrittenReferenceAbuttingIff(m: Metrics, reference: string)
    ensures Abutting(m, ReferenceRuns(reference), WrittenReferenceOffsets(m, reference)) <==>
      WeightBlind(m, Referring) && WeightBlind(m, reference)
  {
    var runs, xs := ReferenceRuns(reference), WrittenReferenceOffsets(m, reference);
    if Abutting(m, runs, xs) {
      assert xs[1] == xs[0] + TextWidth(m, runs[0].font, runs[0].text);
      assert xs[2] == xs[1] + TextWidth(m, runs[1].font, runs[1].text);
    }
  }

  /** "Chave PIX: {key} - Banco {bank}" with "PIX", the key and the bank in bold (lines 112-122). */
  function BankRuns(pixKey: string, bankName: string): seq<Run> {
    [Run("Chave ", BodyNormal), Run("PIX", BodyBold), Run(": ", BodyNormal),
     Run(pixKey, BodyBold), Run(" - ", BodyNormal), Run("Banco " + bankName, BodyBold)]
  }

  /**
   * The offsets as written: "Chave " measured in bold (line 114), "Chave PIX" as one string in
   * the normal weight (line 116), "Chave PIX: " in bold (line 118), "Chave PIX: " and the key
   * in the normal weight (line 120), and "Chave PIX: ", the key and " - " in bold (line 122).
   */
  function WrittenBankOffsets(m: Metrics, pixKey: string): (xs: seq<real>)
    ensures |xs| == 6 && xs[0] == LeftMargin
  {
    [LeftMargin,
     LeftMargin + TextWidth(m, BodyBold, "Chave "),
     LeftMargin + TextWidth(m, BodyNormal, "Chave PIX"),
     LeftMargin + TextWidth(m, BodyBold, "Chave PIX: "),
     LeftMargin + TextWidth(m, BodyNormal, "Chave PIX: ") + TextWidth(m, BodyNormal, pixKey),
     LeftMargin + TextWidth(m, BodyBold, "Chave PIX: ") + TextWidth(m, BodyBold, pixKey) + TextWidth(m, BodyBold, " - ")]
  }

  /** The bank line end to end: each run after the previous one in its own font. */
  function BankOffsets(m: Metrics, pixKey: string, bankName: string): (xs: seq<real>)
    ensures Abutting(m, BankRuns(pixKey, bankName), xs)
  {
    var x1 := LeftMargin + TextWidth(m, BodyNormal, "Chave ");
    var x2 := x1 + TextWidth(m, BodyBold, "PIX");
    var x3 := x2 + TextWidth(m, BodyNormal, ": ");
    var x4 := x3 + TextWidth(m, BodyBold, pixKey);
    [LeftMargin, x1, x2, x3, x4, x4 + TextWidth(m, BodyNormal, " - ")]
  }

  /**
   * When the fixed pieces and the key measure the same in both weights and the prefixes
   * "Chave PIX" and "Chave PIX: " measure as the sum of their pieces, the offsets as written
   * place the bank line end to end.
   */
  lemma WrittenBankAbuttingWhen(m: Metrics, pixKey: string, bankName: string)
    requires WeightBlind(m, "Chave ") && WeightBlind(m, "PIX") && WeightBlind(m, "Chave PIX: ")
    requires WeightBlind(m, pixKey) && WeightBlind(m, " - ")
    requires TextWidth(m, BodyNormal, "Chave PIX") ==
      TextWidth(m, BodyNormal, "Chave ") + TextWidth(m, BodyNormal, "PIX")
    requires TextWidth(m, BodyNormal, "Chave PIX: ") ==
      TextWidth(m, BodyNormal, "Chave PIX") + TextWidth(m, BodyNormal, ": ")
    ensures WrittenBankOffsets(m, pixKey) == BankOffsets(m, pixKey, bankName)
  {
  }

  /** A font in which every character advances `normal` units, or `bold` units in bold. */
  ghost function PerCharacter(normal: real, bold: real): (m: Metrics)
    ensures forall s :: TextWidth(m, BodyNormal, s) == normal * |s| as real
    ensures forall s :: TextWidth(m, BodyBold, s) == bold * |s| as real
  {
    imap k: (Font, string) | true :: (if k.0.weight == Bold then bold else normal) * |k.1| as real
  }

  /**
   * With bold glyphs twice as wide, a one-character reference is placed 11 units right of
   * the end of " referente ", and the full stop 10 units left of the reference's start.
   */
  lemma WrittenReferenceExample()
    ensures var m, xs := PerCharacter(1.0, 2.0), WrittenReferenceOffsets(PerCharacter(1.0, 2.0), "x");
      xs[1] == LeftMargin + 22.0 && xs[1] - (xs[0] + TextWidth(m, BodyNormal, Referring)) == 11.0 &&
      xs[2] == xs[1] - 10.0 &&
      !Abutting(m, ReferenceRuns("x"), xs)
  {
    WrittenReferenceAbuttingIff(PerCharacter(1.0, 2.0), "x");
  }

  /**
   * With bold glyphs twice as wide, ": " is drawn 3 units left of the start of "PIX", that is,
   * before it on the line: although no width is negative, the offsets as written decrease
   * along the line, and the bank line as written is not end to end.
   */
  lemma WrittenBankExample(pixKey: string, bankName: string)
    ensures var m, xs := PerCharacter(1.0, 2.0), WrittenBankOffsets(PerCharacter(1.0, 2.0), pixKey);
      NonNegativeWidths(m) && xs[1] == LeftMargin + 12.0 && xs[2] == xs[1] - 3.0 && xs[2] < xs[1] &&
      !Abutting(m, BankRuns(pixKey, bankName), xs)
  {
    var m, xs := PerCharacter(1.0, 2.0), WrittenBankOffsets(PerCharacter(1.0, 2.0), pixKey);
    assert TextWidth(m, BodyBold, "Chave ") == 12.0 && TextWidth(m, BodyNormal, "Chave PIX") == 9.0;
    assert TextWidth(m, BodyBold, "PIX") == 6.0;
    assert xs[2] != xs[1] + TextWidth(m, BankRuns(pixKey, bankName)[1].font, BankRuns(pixKey, bankName)[1].text);
  }

  /** Offsets that place runs end to end are unique. */
  lemma {:induction false} AbuttingUnique(m: Metrics, runs: seq<Run>, xs: seq<real>, ys: seq<real>)
    requires Abutting(m, runs, xs) && Abutting(m, runs, ys)
    ensures xs == ys
  {
    var k := 0;
    while k < |xs|
      invariant k <= |xs| && forall i :: 0 <= i < k ==> xs[i] == ys[i]
    {
      if k > 0 {
        assert xs[k] == xs[k - 1] + TextWidth(m, runs[k - 1].font, runs[k - 1].text);
      }
      k := k + 1;
    }
  }

  /** The offsets as written are the end-to-end ones exactly when they place the line end to end. */
  lemma WrittenBankIsEndToEndIff(m: Metrics, pixKey: string, bankName: string)
    ensures WrittenBankOffsets(m, pixKey) == BankOffsets(m, pixKey, bankName) <==>
      Abutting(m, BankRuns(pixKey, bankName), WrittenBankOffsets(m, pixKey))
  {
    if Abutting(m, BankRuns(pixKey, bankName), WrittenBankOffsets(m, pixKey)) {
      AbuttingUnique(m, BankRuns(pixKey, bankName), WrittenBankOffsets(m, pixKey), BankOffsets(m, pixKey, bankName));
    }
  }

  /** The reference offsets as written are the end-to-end ones exactly when both texts are weight-blind. */
  lemma WrittenReferenceIsEndToEndIff(m: Metrics, reference: string)
    ensures WrittenReferenceOffsets(m, reference) == ReferenceOffsets(m, reference) <==>
      WeightBlind(m, Referring) && WeightBlind(m, reference)
  {
    WrittenReferenceAbuttingIff(m, reference);
    if Abutting(m, ReferenceRuns(reference), WrittenReferenceOffsets(m, reference)) {
      AbuttingUnique(m, ReferenceRuns(reference), WrittenReferenceOffsets(m, reference), ReferenceOffsets(m, reference));
    }
  }

  /**
   * Placed end to end, the runs of the reference line and of the bank line start at offsets
   * that never decrease along the line, whatever the (non-negative) widths.
   */
  lemma EndToEndOffsetsIncrease(m: Metrics, reference: string, pixKey: string, bankName: string)
    requires NonNegativeWidths(m)
    ensures var xs := ReferenceOffsets(m, reference);
      forall i, j :: 0 <= i <= j < |xs| ==> xs[i] <= xs[j]
    ensures var xs := BankOffsets(m, pixKey, bankName);
      forall i, j :: 0 <= i <= j < |xs| ==> xs[i] <= xs[j]
  {
    var rs, bs := ReferenceOffsets(m, reference), BankOffsets(m, pixKey, bankName);
    forall i, j | 0 <= i <= j < |rs| ensures rs[i] <= rs[j] {
      AbuttingMonotone(m, ReferenceRuns(reference), rs, i, j);
    }
    forall i, j | 0 <= i <= j < |bs| ensures bs[i] <= bs[j] {
      AbuttingMonotone(m, BankRuns(pixKey, bankName), bs, i, j);
    }
  }
}
