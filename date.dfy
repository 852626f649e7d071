/** `formatDate`: the long Portuguese date "{day} de {month} de {year}" from calendar components. */
module DateFormat {
  import opened Wrappers
  import opened Chars

  /** The month names, indexed by `Date.prototype.getMonth` (0 = January). */
  const Months: seq<string> := [
    "janeiro", "fevereiro", "março", "abril", "maio", "junho",
    "julho", "agosto", "setembro", "outubro", "novembro", "dezembro"
  ]

  type MonthIndex = m: int | 0 <= m < 12

  /**
   * The calendar components a parsed `Date` yields: day of the month, month index and full
   * year, or an invalid date, whose components are all NaN.
   */
  datatype DateParts = Calendar(day: int, month: MonthIndex, year: int) | InvalidDate

  /** What the template yields for an invalid date: NaN components and `months[NaN]` undefined. */
  const InvalidDateText: string := "NaN de undefined de NaN"

  function DigitChar(d: nat): (c: char)
    requires d < 10
    ensures IsDigit(c)
  {
    ('0' as int + d) as char
  }

  function DigitValue(c: char): (d: nat)
    requires IsDigit(c)
    ensures d < 10 && DigitChar(d) == c
  {
    c as int - '0' as int
  }

  /** Decimal text of a natural number, most significant digit first, with no leading zero. */
  function NatText(n: nat): (r: string)
    ensures |r| >= 1 && AllDigits(r)
    ensures r[0] == '0' <==> n == 0
    ensures n < 10 ==> |r| == 1
    decreases n
  {
    if n < 10 then [DigitChar(n)] else NatText(n / 10) + [DigitChar(n % 10)]
  }

  /** The string an integral JavaScript number converts to inside a template literal. */
  function IntText(n: int): string {
    if n < 0 then "-" + NatText(-n) else NatText(n)
  }

  /** Value of a decimal digit string. */
  function ParseNat(s: string): nat
    requires AllDigits(s)
  {
    if s == [] then 0 else 10 * ParseNat(s[..|s| - 1]) + DigitValue(s[|s| - 1])
  }

  /** Reads an optionally negative decimal integer; anything else is rejected. */
  function ParseInt(s: string): Option<int> {
    if |s| >= 2 && s[0] == '-' && AllDigits(s[1..]) then Some(0 - ParseNat(s[1..]) as int)
    else if |s| >= 1 && AllDigits(s) then Some(ParseNat(s))
    else None
  }

  /** `formatDate` on valid components. */
  function FormatDate(day: int, month: MonthIndex, year: int): string {
    IntText(day) + " de " + Months[month] + " de " + IntText(year)
  }

  /** `formatDate` on whatever the date string parsed to. */
  function DateText(date: DateParts): string {
    match date
    case Calendar(d, m, y) => FormatDate(d, m, y)
    case InvalidDate => InvalidDateText
  }

  /** Index of the first occurrence of `c` in `s`. */
  function IndexOf(s: string, c: char): (r: Option<nat>)
    ensures r.Some? ==> r.value < |s| && s[r.value] == c
  {
    if s == [] then None
    else if s[0] == c then Some(0)
    else match IndexOf(s[1..], c)
      case None => None
      case Some(k) => Some(k + 1)
  }

  /** The month whose name is `name`, searching from index `from`. */
  function MonthOf(name: string, from: nat := 0): (r: Option<MonthIndex>)
    ensures r.Some? ==> Months[r.value] == name
    decreases 12 - from
  {
    if from >= 12 then None
    else if Months[from] == name then Some(from)
    else MonthOf(name, from + 1)
  }

  /** Splits `s` at its first space, which must open the separator " de ". */
  function SplitAtDe(s: string): Option<(string, string)> {
    match IndexOf(s, ' ')
    case None => None
    case Some(i) =>
      if i + 4 <= |s| && s[i..i + 4] == " de " then Some((s[..i], s[i + 4..])) else None
  }

  /** Reads the long date back: the inverse of `FormatDate`. */
  function ParseDate(s: string): Option<DateParts> {
    match SplitAtDe(s)
    case None => None
    case Some((dayText, rest)) =>
      match SplitAtDe(rest)
      case None => None
      case Some((name, yearText)) =>
        match (ParseInt(dayText), MonthOf(name), ParseInt(yearText))
        case (Some(d), Some(m), Some(y)) => Some(Calendar(d, m, y))
        case _ => None
  }

  lemma {:induction false} ParseNatText(n: nat)
    ensures ParseNat(NatText(n)) == n
    decreases n
  {
    if n >= 10 {
      var s := NatText(n);
      assert s[..|s| - 1] == NatText(n / 10);
      ParseNatText(n / 10);
    }
  }

  /** Reading the decimal text of an integer gives the integer back. */
  lemma ParseIntText(n: int)
    ensures ParseInt(IntText(n)) == Some(n)
  {
    var s := IntText(n);
    if n < 0 {
      assert s[1..] == NatText(-n) && s[0] == '-' && |s| >= 2;
      ParseNatText(-n);
    } else {
      assert s == NatText(n) && IsDigit(s[0]);
      ParseNatText(n);
    }
  }

  /** Integer text has no space, and opens with a minus sign or a digit that is zero only for zero. */
  lemma IntTextHasNoSpace(n: int)
    ensures NoSpace(IntText(n))
    ensures IsDigit(IntText(n)[0]) || IntText(n)[0] == '-'
    ensures IntText(n)[0] == '-' <==> n < 0
    ensures IntText(n)[0] == '0' <==> n == 0
  {
    if n < 0 {
      assert forall i :: 1 <= i < |IntText(n)| ==> IntText(n)[i] == NatText(-n)[i - 1];
    }
  }

  lemma MonthNamesHaveNoSpace(m: MonthIndex)
    ensures NoSpace(Months[m])
  {
  }

  lemma {:induction false} MonthOfName(m: MonthIndex, from: nat)
    requires from <= m
    ensures MonthOf(Months[m], from) == Some(m)
    decreases 12 - from
  {
    if from < m {
      assert Months[from] != Months[m];
      MonthOfName(m, from + 1);
    }
  }

  /** The first `c` of `a + b` is the head of `b` when `a` has none. */
  lemma {:induction false} IndexOfAfter(a: string, b: string, c: char)
    requires forall i :: 0 <= i < |a| ==> a[i] != c
    requires |b| > 0 && b[0] == c
    ensures IndexOf(a + b, c) == Some(|a|)
  {
    if a != [] {
      assert (a + b)[1..] == a[1..] + b;
      IndexOfAfter(a[1..], b, c);
    }
  }

  predicate NoSpace(s: string) {
    forall i :: 0 <= i < |s| ==> s[i] != ' '
  }

  /** A space-free prefix is split off at the separator that follows it. */
  lemma SplitAtDeAfter(a: string, rest: string)
    requires NoSpace(a)
    ensures SplitAtDe(a + " de " + rest) == Some((a, rest))
  {
    var s := a + " de " + rest;
    assert s == a + (" de " + rest);
    IndexOfAfter(a, " de " + rest, ' ');
    assert s[|a|..|a| + 4] == " de ";
    assert s[..|a|] == a;
    assert s[|a| + 4..] == rest;
  }

  /** The long date can be read back: day, month and year are recovered exactly. */
  lemma ParseFormatDate(day: int, month: MonthIndex, year: int)
    ensures ParseDate(FormatDate(day, month, year)) == Some(Calendar(day, month, year))
  {
    IntTextHasNoSpace(day);
    MonthNamesHaveNoSpace(month);
    var d, name, y := IntText(day), Months[month], IntText(year);
    assert FormatDate(day, month, year) == d + " de " + (name + " de " + y);
    SplitAtDeAfter(d, name + " de " + y);
    SplitAtDeAfter(name, y);
    ParseIntText(day);
    ParseIntText(year);
    MonthOfName(month, 0);
  }

  /** Different dates render differently. */
  lemma FormatDateInjective(d1: int, m1: MonthIndex, y1: int, d2: int, m2: MonthIndex, y2: int)
    requires FormatDate(d1, m1, y1) == FormatDate(d2, m2, y2)
    ensures d1 == d2 && m1 == m2 && y1 == y2
  {
    ParseFormatDate(d1, m1, y1);
    ParseFormatDate(d2, m2, y2);
  }

  /** A valid date never renders as the text of an invalid one. */
  lemma ValidDateIsNotInvalidText(day: int, month: MonthIndex, year: int)
    ensures FormatDate(day, month, year) != InvalidDateText
  {
    IntTextHasNoSpace(day);
    assert FormatDate(day, month, year)[0] == IntText(day)[0];
  }

  /** Worked example: 5 March 2024 (month index 2). */
  lemma FormatDateExample()
    ensures FormatDate(5, 2, 2024) == "5 de março de 2024"
  {
  }

  /** Worked example: 15 January 2024 (month index 0), a two-digit day. */
  lemma FormatDateTwoDigitDayExample()
    ensures FormatDate(15, 0, 2024) == "15 de janeiro de 2024"
  {
  }
}
