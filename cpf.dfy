/** `formatCPF`: the Brazilian CPF display mask DDD.DDD.DDD-DD. */
module Cpf {
  import opened Wrappers
  import opened Chars

  /** Number of digits the mask `(\d{3})(\d{3})(\d{3})(\d{2})` consumes. */
  const MaskLength: nat := 11

  /** The pattern matches `t` at position `k`: eleven digits start there. */
  predicate MatchesAt(t: string, k: nat) {
    k + MaskLength <= |t| && AllDigits(t[k..k + MaskLength])
  }

  /** Leftmost position at or after `from` where the unanchored pattern matches. */
  function FirstMatch(t: string, from: nat): (r: Option<nat>)
    ensures r.Some? ==> from <= r.value && MatchesAt(t, r.value)
    ensures r.Some? ==> forall k :: from <= k < r.value ==> !MatchesAt(t, k)
    ensures r.None? ==> forall k :: from <= k ==> !MatchesAt(t, k)
    decreases |t| - from
  {
    if from + MaskLength > |t| then None
    else if MatchesAt(t, from) then Some(from)
    else FirstMatch(t, from + 1)
  }

  /** The replacement `$1.$2.$3-$4` applied to the eleven matched characters. */
  function Group(g: string): (r: string)
    requires |g| == MaskLength
  {
    g[..3] + "." + g[3..6] + "." + g[6..9] + "-" + g[9..]
  }

  /** `String.prototype.replace` with the non-global mask: only the leftmost match is rewritten. */
  function ReplaceFirstMatch(t: string): string {
    match FirstMatch(t, 0)
    case None => t
    case Some(k) => t[..k] + Group(t[k..k + MaskLength]) + t[k + MaskLength..]
  }

  /** `formatCPF`: strip every non-digit, then apply the mask. */
  function FormatCpf(cpf: string): string {
    ReplaceFirstMatch(Digits(cpf))
  }

  /** The display shape DDD.DDD.DDD-DD. */
  predicate CpfShaped(r: string) {
    |r| == 14 && r[3] == '.' && r[7] == '.' && r[11] == '-' &&
    forall i :: 0 <= i < 14 && i != 3 && i != 7 && i != 11 ==> IsDigit(r[i])
  }

  /** On a digit string the unanchored pattern matches at the start as soon as there are eleven digits. */
  lemma MatchAtStart(t: string)
    requires AllDigits(t)
    ensures |t| >= MaskLength ==> FirstMatch(t, 0) == Some(0)
    ensures |t| < MaskLength ==> FirstMatch(t, 0) == None
  {
    if |t| >= MaskLength {
      assert MatchesAt(t, 0);
    }
  }

  /** A one-character separator between two pieces adds no digit. */
  lemma DigitsAcrossSeparator(p: string, sep: string, q: string)
    requires |sep| == 1 && !IsDigit(sep[0])
    ensures Digits(p + sep + q) == Digits(p) + Digits(q)
  {
    var t := sep + q;
    assert t[1..] == q;
    assert p + sep + q == p + t;
    DigitsAppend(p, t);
  }

  /** A piece of a digit string is its own digits. */
  lemma DigitsOfDigitSlice(g: string, i: nat, j: nat)
    requires AllDigits(g) && i <= j <= |g|
    ensures Digits(g[i..j]) == g[i..j]
  {
    assert AllDigits(g[i..j]) by {
      forall k | 0 <= k < j - i ensures IsDigit(g[i..j][k]) {
        assert g[i..j][k] == g[i + k];
      }
    }
  }

  /** The separators the mask inserts are not digits, so the group keeps exactly its digits. */
  lemma DigitsOfGroup(g: string)
    requires |g| == MaskLength && AllDigits(g)
    ensures Digits(Group(g)) == g
  {
    var a, b, c, d := g[..3], g[3..6], g[6..9], g[9..];
    var s1 := a + "." + b;
    var s2 := s1 + "." + c;
    assert Group(g) == s2 + "-" + d;
    DigitsAcrossSeparator(a, ".", b);
    DigitsAcrossSeparator(s1, ".", c);
    DigitsAcrossSeparator(s2, "-", d);
    DigitsOfDigitSlice(g, 0, 3);
    DigitsOfDigitSlice(g, 3, 6);
    DigitsOfDigitSlice(g, 6, 9);
    DigitsOfDigitSlice(g, 9, MaskLength);
    assert g[9..MaskLength] == d;
    assert a + b + c + d == g;
  }

  /** More than ten digits: the first eleven are grouped and the remaining digits follow unchanged. */
  lemma FormatCpfLong(cpf: string)
    requires |Digits(cpf)| >= MaskLength
    ensures FormatCpf(cpf) == Group(Digits(cpf)[..MaskLength]) + Digits(cpf)[MaskLength..]
  {
    var d := Digits(cpf);
    MatchAtStart(d);
    assert d[..0] == [];
  }

  /** Fewer than eleven digits: the mask does not match and the bare digits come back. */
  lemma FormatCpfShort(cpf: string)
    requires |Digits(cpf)| < MaskLength
    ensures FormatCpf(cpf) == Digits(cpf)
  {
    MatchAtStart(Digits(cpf));
  }

  /** Exactly eleven digits: a fourteen-character DDD.DDD.DDD-DD whose digits are the input's, in order. */
  lemma FormatCpfExact(cpf: string)
    requires |Digits(cpf)| == MaskLength
    ensures CpfShaped(FormatCpf(cpf))
    ensures Digits(FormatCpf(cpf)) == Digits(cpf)
  {
    var d := Digits(cpf);
    FormatCpfLong(cpf);
    assert d[..MaskLength] == d;
    assert d[MaskLength..] == [];
    assert FormatCpf(cpf) == Group(d);
    DigitsOfGroup(d);
  }

  /** Stripping the non-digits from the output gives back exactly the input's digits. */
  lemma FormatCpfKeepsDigits(cpf: string)
    ensures Digits(FormatCpf(cpf)) == Digits(cpf)
  {
    var d := Digits(cpf);
    if |d| < MaskLength {
      FormatCpfShort(cpf);
    } else {
      FormatCpfLong(cpf);
      var g, rest := d[..MaskLength], d[MaskLength..];
      assert AllDigits(g) by {
        forall i | 0 <= i < |g| ensures IsDigit(g[i]) {
          assert g[i] == d[i];
        }
      }
      DigitsOfGroup(g);
      DigitsAppend(Group(g), rest);
      assert g + rest == d;
    }
  }

  /** Formatting an already formatted CPF changes nothing. */
  lemma FormatCpfIdempotent(cpf: string)
    ensures FormatCpf(FormatCpf(cpf)) == FormatCpf(cpf)
  {
    FormatCpfKeepsDigits(cpf);
  }

  /** The mask applied to the eleven digits 12345678901. */
  lemma GroupExample(bare: string)
    requires bare == "12345678901"
    ensures Group(bare) == "123.456.789-01"
  {
    assert bare[..3] == "123" && bare[3..6] == "456" && bare[6..9] == "789" && bare[9..] == "01";
  }

  /** Worked example: the bare CPF 12345678901 displays as 123.456.789-01. */
  lemma FormatCpfExample(bare: string)
    requires bare == "12345678901"
    ensures FormatCpf(bare) == "123.456.789-01"
  {
    assert AllDigits(bare);
    FormatCpfLong(bare);
    assert bare[..MaskLength] == bare && bare[MaskLength..] == [];
    GroupExample(bare);
  }

  /** Worked example: the pre-formatted CPF comes back unchanged. */
  lemma FormatCpfPreformattedExample()
    ensures FormatCpf("123.456.789-01") == "123.456.789-01"
  {
    FormatCpfExample("12345678901");
    FormatCpfIdempotent("12345678901");
  }
}
