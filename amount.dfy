/** The string clean-up applied to the amount before it is parsed as a number. */
module Amount {
  import opened Wrappers
  import opened Chars

  /** Characters the class `[^\d,]` does not remove. */
  predicate Kept(c: char) {
    IsDigit(c) || c == ','
  }

  /** `s.replace(/[^\d,]/g, '')`: the digits and commas of `s`, in order. */
  function KeepDigitsAndCommas(s: string): (r: string)
    ensures forall i :: 0 <= i < |r| ==> Kept(r[i])
    ensures |r| <= |s|
    ensures (forall i :: 0 <= i < |s| ==> Kept(s[i])) ==> r == s
  {
    if s == [] then []
    else if Kept(s[0]) then [s[0]] + KeepDigitsAndCommas(s[1..])
    else KeepDigitsAndCommas(s[1..])
  }

  /** Index of the first comma of `t`, if any. */
  function FirstComma(t: string): (r: Option<nat>)
    ensures r.Some? ==> r.value < |t| && t[r.value] == ','
    ensures r.Some? ==> forall j :: 0 <= j < r.value ==> t[j] != ','
    ensures r.None? ==> forall j :: 0 <= j < |t| ==> t[j] != ','
  {
    if t == [] then None
    else if t[0] == ',' then Some(0)
    else match FirstComma(t[1..])
      case None => None
      case Some(k) => Some(k + 1)
  }

  /** `t.replace(',', '.')`: a string pattern, so only the first comma is replaced. */
  function ReplaceFirstComma(t: string): string {
    if t == [] then []
    else if t[0] == ',' then ['.'] + t[1..]
    else [t[0]] + ReplaceFirstComma(t[1..])
  }

  /** The normalised amount string that `parseFloat` receives. */
  function NormalizeAmount(amount: string): string {
    ReplaceFirstComma(KeepDigitsAndCommas(amount))
  }

  /** Characters the normalised amount may contain. */
  predicate AmountChar(c: char) {
    IsDigit(c) || c == ',' || c == '.'
  }

  /** The inverse of replacing the first comma: every point back to a comma. */
  function PointsToCommas(t: string): (r: string)
    ensures |r| == |t|
    ensures forall i :: 0 <= i < |t| ==> r[i] == (if t[i] == '.' then ',' else t[i])
  {
    if t == [] then [] else [if t[0] == '.' then ',' else t[0]] + PointsToCommas(t[1..])
  }

  /** Replacing the first comma is characterised by the first-comma index: nothing else moves. */
  lemma {:induction false} ReplaceFirstCommaAt(t: string)
    ensures FirstComma(t).None? ==> ReplaceFirstComma(t) == t
    ensures FirstComma(t).Some? ==>
      var k := FirstComma(t).value;
      ReplaceFirstComma(t) == t[..k] + "." + t[k + 1..]
  {
    if t != [] && t[0] != ',' {
      ReplaceFirstCommaAt(t[1..]);
      if FirstComma(t[1..]).Some? {
        var k := FirstComma(t[1..]).value;
        assert [t[0]] + t[1..][..k] == t[..k + 1];
        assert t[1..][k + 1..] == t[k + 2..];
      } else {
        assert [t[0]] + t[1..] == t;
      }
    }
  }

  /** Pointwise: the replace puts a point at the first comma's index and copies every other character. */
  lemma ReplaceFirstCommaPointwise(t: string)
    ensures |ReplaceFirstComma(t)| == |t|
    ensures forall i :: 0 <= i < |t| ==>
      ReplaceFirstComma(t)[i] == if FirstComma(t) == Some(i) then '.' else t[i]
  {
    ReplaceFirstCommaAt(t);
    if FirstComma(t).Some? {
      var k, r := FirstComma(t).value, ReplaceFirstComma(t);
      assert forall i :: 0 <= i < k ==> r[i] == t[..k][i];
      assert forall i :: k < i < |t| ==> r[i] == t[k + 1..][i - k - 1];
    }
  }

  /**
   * The normalised amount holds only digits, commas and points; a point sits exactly
   * where the first comma of the filtered string was, and every other character is unchanged.
   */
  lemma NormalizeAmountShape(amount: string)
    ensures var t, r := KeepDigitsAndCommas(amount), NormalizeAmount(amount);
      |r| == |t| &&
      (forall i :: 0 <= i < |r| ==> AmountChar(r[i])) &&
      (forall i :: 0 <= i < |r| ==> (r[i] == '.' <==> FirstComma(t) == Some(i))) &&
      (forall i :: 0 <= i < |r| && r[i] != '.' ==> r[i] == t[i])
  {
    var t := KeepDigitsAndCommas(amount);
    ReplaceFirstCommaPointwise(t);
  }

  /** At most one point: two points in the normalised amount are the same one. */
  lemma NormalizeAmountOnePoint(amount: string, i: nat, j: nat)
    requires i < |NormalizeAmount(amount)| && j < |NormalizeAmount(amount)|
    requires NormalizeAmount(amount)[i] == '.' && NormalizeAmount(amount)[j] == '.'
    ensures i == j
  {
    NormalizeAmountShape(amount);
  }

  /** Turning the point back into a comma recovers the filtered string, so no digit is lost or moved. */
  lemma NormalizeAmountRestores(amount: string)
    ensures PointsToCommas(NormalizeAmount(amount)) == KeepDigitsAndCommas(amount)
  {
    var t, r := KeepDigitsAndCommas(amount), NormalizeAmount(amount);
    NormalizeAmountShape(amount);
    assert forall i :: 0 <= i < |t| ==> PointsToCommas(r)[i] == t[i];
  }

  /** The digits are exactly the input's digits, in their original order. */
  lemma {:induction false} NormalizeAmountDigits(amount: string)
    ensures Digits(NormalizeAmount(amount)) == Digits(amount)
  {
    var t := KeepDigitsAndCommas(amount);
    ReplaceFirstCommaAt(t);
    KeepDigitsAndCommasDigits(amount);
    if FirstComma(t).Some? {
      CommaToPointKeepsDigits(t, FirstComma(t).value);
    }
  }

  /** Turning a comma into a point changes no digit. */
  lemma CommaToPointKeepsDigits(t: string, k: nat)
    requires k < |t| && t[k] == ','
    ensures Digits(t[..k] + "." + t[k + 1..]) == Digits(t)
  {
    var a, b := t[..k], t[k + 1..];
    assert t == (a + [',']) + b;
    assert t[..k] + "." + t[k + 1..] == (a + ".") + b;
    assert Digits([',']) == [] && Digits(".") == [];
    DigitsAppend(a + [','], b);
    DigitsAppend(a, [',']);
    DigitsAppend(a + ".", b);
    DigitsAppend(a, ".");
  }

  /** Dropping the non-digit, non-comma characters keeps every digit. */
  lemma {:induction false} KeepDigitsAndCommasDigits(s: string)
    ensures Digits(KeepDigitsAndCommas(s)) == Digits(s)
  {
    if s != [] {
      KeepDigitsAndCommasDigits(s[1..]);
      if Kept(s[0]) {
        assert ([s[0]] + KeepDigitsAndCommas(s[1..]))[1..] == KeepDigitsAndCommas(s[1..]);
      }
    }
  }

  /** The filter distributes over concatenation, so the kept characters stay in their order. */
  lemma {:induction false} KeepDigitsAndCommasAppend(a: string, b: string)
    ensures KeepDigitsAndCommas(a + b) == KeepDigitsAndCommas(a) + KeepDigitsAndCommas(b)
  {
    if a == [] {
      assert a + b == b;
    } else {
      assert (a + b)[1..] == a[1..] + b;
      KeepDigitsAndCommasAppend(a[1..], b);
    }
  }

  /** A string with no digit and no comma filters to the empty string. */
  lemma {:induction false} KeepDigitsAndCommasOfUnkept(s: string)
    requires forall i :: 0 <= i < |s| ==> !Kept(s[i])
    ensures KeepDigitsAndCommas(s) == []
  {
    if s != [] {
      KeepDigitsAndCommasOfUnkept(s[1..]);
    }
  }

  /**
   * Every digit and every comma of the input survives, as often as it occurs there, and
   * every other character is gone.
   */
  lemma {:induction false} KeepDigitsAndCommasCounts(s: string, c: char)
    ensures multiset(KeepDigitsAndCommas(s))[c] == if Kept(c) then multiset(s)[c] else 0
  {
    if s != [] {
      KeepDigitsAndCommasCounts(s[1..], c);
      assert s == [s[0]] + s[1..];
      assert multiset(s) == multiset([s[0]]) + multiset(s[1..]);
      if Kept(s[0]) {
        var r := KeepDigitsAndCommas(s[1..]);
        assert multiset([s[0]] + r) == multiset([s[0]]) + multiset(r);
      }
    }
  }

  /** The filtered string has a comma exactly when the input has one. */
  lemma KeepDigitsAndCommasHasComma(s: string)
    ensures FirstComma(KeepDigitsAndCommas(s)).Some? <==> ',' in s
  {
    var t := KeepDigitsAndCommas(s);
    KeepDigitsAndCommasCounts(s, ',');
    assert ',' in t <==> multiset(t)[','] > 0;
    assert ',' in s <==> multiset(s)[','] > 0;
    if FirstComma(t).None? {
      assert ',' !in t;
    }
  }

  /** The pieces of "R$ 1.234,56": no kept character, a digit and a point, and only kept characters. */
  lemma KeepDigitsAndCommasPieces()
    ensures KeepDigitsAndCommas("R$ ") == [] && KeepDigitsAndCommas("1.") == "1"
    ensures KeepDigitsAndCommas("234,56") == "234,56"
  {
    KeepDigitsAndCommasOfUnkept("R$ ");
    assert "1."[1..] == ".";
    var tail := "234,56";
    assert forall i :: 0 <= i < |tail| ==> Kept(tail[i]);
  }

  /**
   * The filtering step on "R$ 1.234,56", taken piece by piece: the currency sign, the space
   * and the thousands point go, the digits and the decimal comma stay.
   */
  lemma KeepDigitsAndCommasExample()
    ensures KeepDigitsAndCommas("R$ " + "1." + "234,56") == "1" + "234,56"
  {
    KeepDigitsAndCommasPieces();
    KeepDigitsAndCommasAppend("R$ " + "1.", "234,56");
    KeepDigitsAndCommasAppend("R$ ", "1.");
  }

  /** The replacing step on "1234,56": the decimal comma becomes a point. */
  lemma ReplaceFirstCommaExample()
    ensures ReplaceFirstComma("1234,56") == "1234.56"
  {
    var t := "1234,56";
    ReplaceFirstCommaPointwise(t);
    assert FirstComma(t) == Some(4) by {
      assert t[1..] == "234,56" && t[1..][1..] == "34,56" && t[1..][1..][1..] == "4,56";
      assert t[1..][1..][1..][1..] == ",56";
    }
  }

  /** "R$ 1.234,56" is normalised to "1234.56", which `parseFloat` reads as 1234.56. */
  lemma NormalizeAmountExample()
    ensures NormalizeAmount("R$ " + "1." + "234,56") == "1234.56"
  {
    KeepDigitsAndCommasExample();
    assert "1" + "234,56" == "1234,56";
    ReplaceFirstCommaExample();
  }
}
