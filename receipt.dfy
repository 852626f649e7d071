/**
 * `generateReceiptPDF`: the presence guard, the vertical cursor and the placement of styled
 * text runs on the receipt page. The drawing surface is an append-only log of commands;
 * text width, line wrapping, the logo download, the spelling of the amount in words and the
 * parsing of the date string are services of the host.
 */
module Receipt {
  import opened Wrappers
  import opened Placement
  import Cpf
  import Amount
  import DateFormat

  datatype Payee = Payee(fullName: string, pixKey: string, bankName: string, cpf: string)

  /** The record handed to the generator; the payee may be missing. */
  datatype ReceiptData = ReceiptData(amount: string, reference: string, date: string, payee: Option<Payee>)

  datatype Align = AlignLeft | AlignCenter | AlignJustify

  /** One call on the drawing surface. */
  datatype Command =
    | Image(x: real, y: int, w: real, h: real)
    | Text(text: string, x: real, y: int, font: Font, align: Align)
    | Wrapped(text: string, lineCount: nat, x: real, y: int, maxWidth: real, font: Font, align: Align)
    | Rule(x1: real, y: int, x2: real)
    | Save(fileName: string)

  /**
   * What the generator obtains from outside: the page width, the font metrics, whether the
   * logo was fetched and decoded, the number of lines the legal text wraps to, the amount in
   * words for each normalised amount string on which the conversion succeeds (a missing key
   * is one on which it throws), and the calendar components of the date strings that parse
   * (a missing key is an invalid date).
   */
  datatype Host = Host(
    pageWidth: real,
    metrics: Metrics,
    logoLoaded: bool,
    legalLines: nat,
    inWords: imap<string, string>,
    calendar: imap<string, DateFormat.DateParts>)

  /** `extenso(parseFloat(...))` on the normalised amount, or None when it throws. */
  function AmountInWords(host: Host, amount: string): Option<string> {
    var key := Amount.NormalizeAmount(amount);
    if key in host.inWords then Some(host.inWords[key]) else None
  }

  /** `new Date(date)` as calendar components. */
  function DateOf(host: Host, date: string): DateFormat.DateParts {
    if date in host.calendar then host.calendar[date] else DateFormat.InvalidDate
  }

  const RightMargin: real := 20.0
  const TopMargin: int := 20
  const FileName: string := "recibo.pdf"
  const Title: string := "RECIBO DE PAGAMENTO"
  const Company: string := "Escola Web Unova Cursos Ltda"
  const Cnpj: string := "12.301.010/0001-46"
  const City: string := "Goiânia"
  const LegalText: string := "Para maior clareza firmo(amos) o presente recibo para que produza os seus efeitos, dando plena, rasa e irrevogável quitação, pelo valor recebido."

  // The fixed runs of the body text.
  const ReceivedFrom: string := "Recebi(emos) de "
  const CnpjClause: string := " - CNPJ nº: " + Cnpj + ", a importância de "
  const ReceivedBy: string := "Pagamento recebido por: "

  /**
   * The advances of the vertical cursor, in the order the generator applies them: logo
   * (reserved whether or not it loaded), title, amount, acknowledgement, legal text of
   * `legalLines` lines, payee line, bank line, place and date.
   */
  function Advances(legalLines: nat): seq<int> {
    [25, 15, 20, 25, legalLines * 7 + 15, 10, 15, 25]
  }

  /** The cursor after the first `k` advances, starting at the top margin. */
  function CursorAt(legalLines: nat, k: nat): int
    requires k <= |Advances(legalLines)|
  {
    if k == 0 then TopMargin else CursorAt(legalLines, k - 1) + Advances(legalLines)[k - 1]
  }

  /** Every advance moves the cursor strictly down the page. */
  lemma CursorIncreases(legalLines: nat, k: nat)
    requires k < |Advances(legalLines)|
    ensures CursorAt(legalLines, k) < CursorAt(legalLines, k + 1)
  {
  }

  /**
   * The acknowledgement starts at 80 and the legal text at 105; the payee line is at
   * 120 + 7n, the bank line at 130 + 7n, the place and date at 145 + 7n and the signature
   * rule at 170 + 7n.
   */
  lemma CursorPositions(legalLines: nat)
    ensures CursorAt(legalLines, 3) == 80 && CursorAt(legalLines, 4) == 105
    ensures CursorAt(legalLines, 5) == 120 + 7 * legalLines
    ensures CursorAt(legalLines, 6) == 130 + 7 * legalLines
    ensures CursorAt(legalLines, 7) == 145 + 7 * legalLines
    ensures CursorAt(legalLines, 8) == 170 + 7 * legalLines
  {
    var a := Advances(legalLines);
    assert CursorAt(legalLines, 1) == 45 by { assert a[0] == 25; }
    assert CursorAt(legalLines, 2) == 60 by { assert a[1] == 15; }
    assert CursorAt(legalLines, 3) == 80 by { assert a[2] == 20; }
    assert CursorAt(legalLines, 4) == 105 by { assert a[3] == 25; }
    assert CursorAt(legalLines, 5) == 120 + 7 * legalLines by { assert a[4] == legalLines * 7 + 15; }
    assert CursorAt(legalLines, 6) == 130 + 7 * legalLines by { assert a[5] == 10; }
    assert CursorAt(legalLines, 7) == 145 + 7 * legalLines by { assert a[6] == 15; }
    assert a[7] == 25;
  }

  /** The guard: payee present and amount, reference and date non-empty. */
  predicate HasRequiredData(data: ReceiptData) {
    data.payee.Some? && data.amount != [] && data.reference != [] && data.date != []
  }

  /** The vertical position of a drawing command (saving has none). */
  function Y(c: Command): int
    requires !c.Save?
  {
    match c
    case Image(_, y, _, _) => y
    case Text(_, _, y, _, _) => y
    case Wrapped(_, _, _, y, _, _, _) => y
    case Rule(_, y, _) => y
  }

  predicate InOrder(a: Command, b: Command) {
    a.Save? || b.Save? || Y(a) <= Y(b)
  }

  /** Every command is drawn at or below the one before it. */
  ghost predicate TopToBottom(log: seq<Command>) {
    forall i :: 0 <= i < |log| - 1 ==> InOrder(log[i], log[i + 1])
  }

  predicate LeftRun(c: Command) {
    c.Text? && c.align == AlignLeft
  }

  /** `b` is the next run on `a`'s line. */
  predicate Continues(a: Command, b: Command) {
    LeftRun(a) && LeftRun(b) && a.y == b.y
  }

  /** Each run on a line starts where the previous run, measured in its own font, ends. */
  ghost predicate RunsAbut(log: seq<Command>, width: Metrics) {
    forall i :: 0 <= i < |log| - 1 && Continues(log[i], log[i + 1]) ==>
      log[i + 1].x == log[i].x + TextWidth(width, log[i].font, log[i].text)
  }

  /** The first run of every left-aligned line starts at the left margin. */
  ghost predicate LinesStartAtMargin(log: seq<Command>) {
    (log != [] && LeftRun(log[0]) ==> log[0].x == LeftMargin) &&
    forall i :: 0 <= i < |log| - 1 && LeftRun(log[i + 1]) && !Continues(log[i], log[i + 1]) ==>
      log[i + 1].x == LeftMargin
  }

  /** The drawing surface: the commands issued so far, the latest last. */
  datatype Surface = Blank | Then(before: Surface, last: Command)

  /** The commands of the surface, in the order they were issued. */
  function Commands(page: Surface): seq<Command> {
    match page
    case Blank => []
    case Then(before, c) => Commands(before) + [c]
  }

  /** The latest command, if any. */
  function Latest(page: Surface): Option<Command> {
    match page
    case Blank => None
    case Then(_, c) => Some(c)
  }

  /**
   * The conditions under which the generator draws `c` right after `last`: not a save, not
   * above the previous command, and at the left margin when it opens a left-aligned line.
   */
  predicate Fits(last: Option<Command>, c: Command) {
    !c.Save? &&
    match last
    case None => LeftRun(c) ==> c.x == LeftMargin
    case Some(p) => InOrder(p, c) && (LeftRun(c) && !Continues(p, c) ==> c.x == LeftMargin)
  }

  /** A surface drawn so far: every command fitted the one before it, and nothing was saved. */
  predicate Drawing(page: Surface) {
    match page
    case Blank => true
    case Then(before, c) => Drawing(before) && Fits(Latest(before), c)
  }

  /** Every run that continues a line starts where the previous run, in its own font, ends. */
  predicate Abuts(page: Surface, m: Metrics) {
    match page
    case Blank => true
    case Then(before, c) =>
      Abuts(before, m) &&
      match Latest(before)
      case None => true
      case Some(p) => Continues(p, c) ==> c.x == p.x + TextWidth(m, p.font, p.text)
  }

  /** The first command issued, if any. */
  function First(page: Surface): Option<Command> {
    match page
    case Blank => None
    case Then(before, c) => if before == Blank then Some(c) else First(before)
  }

  /** `c` was issued on the surface at some point. */
  predicate Drew(page: Surface, c: Command) {
    match page
    case Blank => false
    case Then(before, d) => d == c || Drew(before, c)
  }

  /** One drawing call on the surface: the command is appended and everything drawn stays. */
  method Draw(page: Surface, c: Command) returns (r: Surface)
    requires Drawing(page) && Fits(Latest(page), c)
    ensures r == Then(page, c) && Commands(r) == Commands(page) + [c]
    ensures Drawing(r) && Latest(r) == Some(c)
    ensures Drew(r, c) && forall d :: Drew(page, d) ==> Drew(r, d)
    ensures First(r) == if page == Blank then Some(c) else First(page)
  {
    r := Then(page, c);
  }

  /** `First` is the head of the command list. */
  lemma {:induction false} FirstIsHead(page: Surface)
    ensures First(page) == if Commands(page) == [] then None else Some(Commands(page)[0])
  {
    if page.Then? && page.before != Blank {
      FirstIsHead(page.before);
      assert Commands(page.before) != [] by { LatestIsLast(page.before); }
    }
  }

  lemma LatestIsLast(page: Surface)
    ensures Latest(page) == (if Commands(page) == [] then None else Some(Commands(page)[|Commands(page)| - 1]))
  {
  }

  /** A surface drawn command by command is ordered top to bottom and its lines start at the margin. */
  lemma {:induction false} DrawingLayout(page: Surface)
    requires Drawing(page)
    ensures var log := Commands(page);
      TopToBottom(log) && LinesStartAtMargin(log) &&
      forall i :: 0 <= i < |log| ==> !log[i].Save?
  {
    if page.Then? {
      var init, log := Commands(page.before), Commands(page);
      DrawingLayout(page.before);
      assert forall i :: 0 <= i < |init| ==> log[i] == init[i];
      LatestIsLast(page.before);
    }
  }

  /** On a surface whose continuing runs abut, the runs of the command list abut. */
  lemma {:induction false} AbutsLayout(page: Surface, m: Metrics)
    requires Abuts(page, m)
    ensures RunsAbut(Commands(page), m)
  {
    if page.Then? {
      var init, log := Commands(page.before), Commands(page);
      AbutsLayout(page.before, m);
      assert forall i :: 0 <= i < |init| ==> log[i] == init[i];
      LatestIsLast(page.before);
    }
  }

  /** Saving after the drawing keeps the layout properties and leaves the save last. */
  lemma SaveEndsDrawing(page: Surface)
    requires Drawing(page)
    ensures var r := Commands(page) + [Save(FileName)];
      TopToBottom(r) && LinesStartAtMargin(r) &&
      forall i :: 0 <= i < |r| && r[i].Save? ==> i == |r| - 1
  {
    DrawingLayout(page);
    var log := Commands(page);
    var r := log + [Save(FileName)];
    assert forall i :: 0 <= i < |log| ==> r[i] == log[i];
  }

  /** The next line is drawn strictly below everything drawn so far. */
  predicate StartsBelow(page: Surface, y: int) {
    match Latest(page)
    case None => true
    case Some(p) => !p.Save? && Y(p) < y
  }

  /** Everything drawn on `page` is still on `r`, and so is its first command. */
  ghost predicate Extends(r: Surface, page: Surface) {
    (forall d :: Drew(page, d) ==> Drew(r, d)) &&
    (page != Blank ==> First(r) == First(page))
  }

  /** The heading: the logo when it was loaded, then the title and the amount, centred. */
  function Heading(logoLoaded: bool, amount: string, pageWidth: real): seq<Command> {
    (if logoLoaded then [Image(LeftMargin, TopMargin, 40.0, 15.0)] else []) + [
      Text(Title, pageWidth / 2.0, TopMargin + 25, Font(Bold, 16), AlignCenter),
      Text(amount, pageWidth / 2.0, TopMargin + 40, Font(Bold, 14), AlignCenter)]
  }

  /** Logo (when it was loaded), title and amount, and the cursor after them (lines 28-60). */
  method DrawHeading(host: Host, amount: string) returns (r: Surface, yPos: int)
    ensures Drawing(r) && StartsBelow(r, yPos)
    ensures yPos == CursorAt(host.legalLines, 3)
    ensures Commands(r) == Heading(host.logoLoaded, amount, host.pageWidth)
    ensures First(r) == Some(Heading(host.logoLoaded, amount, host.pageWidth)[0])
  {
    var advance := Advances(host.legalLines);
    yPos := TopMargin;
    r := Blank;
    // The logo is drawn only when it was fetched and decoded; its space is reserved either way.
    if host.logoLoaded {
      r := Draw(r, Image(LeftMargin, yPos, 40.0, 15.0));
    }
    assert Commands(r) == if host.logoLoaded then [Image(LeftMargin, TopMargin, 40.0, 15.0)] else [];
    yPos := yPos + advance[0];
    var font := Font(Bold, 16);
    r := Draw(r, Text(Title, host.pageWidth / 2.0, yPos, font, AlignCenter));
    yPos := yPos + advance[1];
    font := Font(Bold, 14);
    var before := Commands(r);
    r := Draw(r, Text(amount, host.pageWidth / 2.0, yPos, font, AlignCenter));
    assert Commands(r) == before + [Text(amount, host.pageWidth / 2.0, yPos, font, AlignCenter)];
    yPos := yPos + advance[2];
    CursorPositions(host.legalLines);
  }

  /** The heading alone, which is what a failed conversion leaves, is laid out and not saved. */
  lemma HeadingLaidOut(logoLoaded: bool, amount: string, pageWidth: real)
    ensures var log := Heading(logoLoaded, amount, pageWidth);
      TopToBottom(log) && LinesStartAtMargin(log) &&
      forall i :: 0 <= i < |log| ==> !log[i].Save?
  {
  }

  /** The runs of "Recebi(emos) de {company} - CNPJ nº: {cnpj}, a importância de " at `y`. */
  function PaymentLine(m: Metrics, y: int): seq<Command> {
    var x1 := LeftMargin + TextWidth(m, BodyNormal, ReceivedFrom);
    [Text(ReceivedFrom, LeftMargin, y, BodyNormal, AlignLeft),
     Text(Company, x1, y, BodyBold, AlignLeft),
     Text(CnpjClause, x1 + TextWidth(m, BodyBold, Company), y, BodyNormal, AlignLeft)]
  }

  /** The runs of " referente {reference}." at `y`, at the offsets the generator measures. */
  function ReferenceLine(m: Metrics, reference: string, y: int): seq<Command> {
    var xs := WrittenReferenceOffsets(m, reference);
    [Text(Referring, xs[0], y, BodyNormal, AlignLeft),
     Text(reference, xs[1], y, BodyBold, AlignLeft),
     Text(".", xs[2], y, BodyNormal, AlignLeft)]
  }

  /** The runs of "Pagamento recebido por: {full name}" at `y`. */
  function PayeeLine(m: Metrics, fullName: string, y: int): seq<Command> {
    [Text(ReceivedBy, LeftMargin, y, BodyNormal, AlignLeft),
     Text(fullName, LeftMargin + TextWidth(m, BodyNormal, ReceivedBy), y, BodyBold, AlignLeft)]
  }

  /** The runs of "Chave PIX: {key} - Banco {bank}" at `y`, at the offsets the generator measures. */
  function BankLine(m: Metrics, pixKey: string, bankName: string, y: int): seq<Command> {
    var xs := WrittenBankOffsets(m, pixKey);
    [Text("Chave ", xs[0], y, BodyNormal, AlignLeft),
     Text("PIX", xs[1], y, BodyBold, AlignLeft),
     Text(": ", xs[2], y, BodyNormal, AlignLeft),
     Text(pixKey, xs[3], y, BodyBold, AlignLeft),
     Text(" - ", xs[4], y, BodyNormal, AlignLeft),
     Text("Banco " + bankName, xs[5], y, BodyBold, AlignLeft)]
  }

  /** The runs of "{city}, {date}" at `y`. */
  function PlaceAndDate(m: Metrics, dateText: string, y: int): seq<Command> {
    [Text(City, LeftMargin, y, BodyBold, AlignLeft),
     Text(", " + dateText, LeftMargin + TextWidth(m, BodyBold, City), y, BodyNormal, AlignLeft)]
  }

  /** The signature rule at `y` and the name and CPF centred below it. */
  function Signature(fullName: string, cpf: string, pageWidth: real, y: int): seq<Command> {
    [Rule(LeftMargin, y, pageWidth - RightMargin),
     Text(fullName, pageWidth / 2.0, y + 10, BodyBold, AlignCenter),
     Text("CPF " + Cpf.FormatCpf(cpf), pageWidth / 2.0, y + 20, BodyNormal, AlignCenter)]
  }

  /** "Recebi(emos) de {company} - CNPJ nº: {cnpj}, a importância de " (lines 67-81). */
  method DrawPaymentLine(page: Surface, y: int, width: Metrics) returns (r: Surface)
    requires Drawing(page) && StartsBelow(page, y)
    ensures Drawing(r) && Extends(r, page)
    ensures StartsBelow(r, y + 1)
    ensures Abuts(page, width) ==> Abuts(r, width)
    ensures Commands(r) == Commands(page) + PaymentLine(width, y)
    ensures var x1 := LeftMargin + TextWidth(width, BodyNormal, ReceivedFrom);
      r == Then(Then(Then(page,
        Text(ReceivedFrom, LeftMargin, y, BodyNormal, AlignLeft)),
        Text(Company, x1, y, BodyBold, AlignLeft)),
        Text(CnpjClause, x1 + TextWidth(width, BodyBold, Company), y, BodyNormal, AlignLeft))
  {
    var font := BodyNormal;
    r := Draw(page, Text(ReceivedFrom, LeftMargin, y, font, AlignLeft));
    var receiptStart := TextWidth(width, font, ReceivedFrom);
    font := BodyBold;
    r := Draw(r, Text(Company, LeftMargin + receiptStart, y, font, AlignLeft));
    var companyWidth := TextWidth(width, font, Company);
    font := BodyNormal;
    r := Draw(r, Text(CnpjClause, LeftMargin + receiptStart + companyWidth, y, font, AlignLeft));
  }

  /**
   * " referente {reference}." as the generator places it (lines 86-93): each offset is
   * measured in the font set just before the call that uses it.
   */
  method DrawReferenceLine(page: Surface, reference: string, y: int, width: Metrics)
    returns (r: Surface)
    requires Drawing(page) && StartsBelow(page, y)
    ensures Drawing(r) && Extends(r, page)
    ensures StartsBelow(r, y + 1)
    ensures Commands(r) == Commands(page) + ReferenceLine(width, reference, y)
    ensures var xs := WrittenReferenceOffsets(width, reference);
      r == Then(Then(Then(page,
        Text(Referring, xs[0], y, BodyNormal, AlignLeft)),
        Text(reference, xs[1], y, BodyBold, AlignLeft)),
        Text(".", xs[2], y, BodyNormal, AlignLeft))
  {
    var font := BodyNormal;
    r := Draw(page, Text(Referring, LeftMargin, y, font, AlignLeft));
    font := BodyBold;
    r := Draw(r, Text(reference, LeftMargin + TextWidth(width, font, Referring), y, font, AlignLeft));
    font := BodyNormal;
    r := Draw(r, Text(".", LeftMargin + TextWidth(width, font, Referring) + TextWidth(width, font, reference), y, font, AlignLeft));
  }

  /** The reference line with every run placed after the previous one measured in its own font. */
  method DrawReferenceLineEndToEnd(page: Surface, reference: string, y: int, width: Metrics)
    returns (r: Surface)
    requires Drawing(page) && StartsBelow(page, y)
    ensures Drawing(r) && Extends(r, page)
    ensures StartsBelow(r, y + 1)
    ensures Abuts(page, width) ==> Abuts(r, width)
    ensures var xs := ReferenceOffsets(width, reference);
      r == Then(Then(Then(page,
        Text(Referring, xs[0], y, BodyNormal, AlignLeft)),
        Text(reference, xs[1], y, BodyBold, AlignLeft)),
        Text(".", xs[2], y, BodyNormal, AlignLeft))
  {
    var font := BodyNormal;
    var x := LeftMargin;
    r := Draw(page, Text(Referring, x, y, font, AlignLeft));
    x := x + TextWidth(width, font, Referring);
    font := BodyBold;
    r := Draw(r, Text(reference, x, y, font, AlignLeft));
    x := x + TextWidth(width, font, reference);
    font := BodyNormal;
    r := Draw(r, Text(".", x, y, font, AlignLeft));
  }

  /** "Pagamento recebido por: {full name}" (lines 103-107). */
  method DrawPayeeLine(page: Surface, fullName: string, y: int, width: Metrics)
    returns (r: Surface)
    requires Drawing(page) && StartsBelow(page, y)
    ensures Drawing(r) && Extends(r, page)
    ensures StartsBelow(r, y + 1)
    ensures Abuts(page, width) ==> Abuts(r, width)
    ensures Commands(r) == Commands(page) + PayeeLine(width, fullName, y)
    ensures var payee := Text(fullName, LeftMargin + TextWidth(width, BodyNormal, ReceivedBy), y, BodyBold, AlignLeft);
      r == Then(Then(page, Text(ReceivedBy, LeftMargin, y, BodyNormal, AlignLeft)), payee)
  {
    var font := BodyNormal;
    r := Draw(page, Text(ReceivedBy, LeftMargin, y, font, AlignLeft));
    var receivedByWidth := TextWidth(width, font, ReceivedBy);
    font := BodyBold;
    r := Draw(r, Text(fullName, LeftMargin + receivedByWidth, y, font, AlignLeft));
  }

  /** "Chave PIX: " as the generator places it (lines 112-116), each offset measured in the font set just before. */
  method DrawPixLabel(page: Surface, y: int, width: Metrics) returns (r: Surface)
    requires Drawing(page) && StartsBelow(page, y)
    ensures Drawing(r) && Extends(r, page)
    ensures var colon := Text(": ", LeftMargin + TextWidth(width, BodyNormal, "Chave PIX"), y, BodyNormal, AlignLeft);
      Latest(r) == Some(colon) &&
      Commands(r) == Commands(page) + [Text("Chave ", LeftMargin, y, BodyNormal, AlignLeft),
        Text("PIX", LeftMargin + TextWidth(width, BodyBold, "Chave "), y, BodyBold, AlignLeft), colon]
  {
    var font := BodyNormal;
    r := Draw(page, Text("Chave ", LeftMargin, y, font, AlignLeft));
    font := BodyBold;
    r := Draw(r, Text("PIX", LeftMargin + TextWidth(width, font, "Chave "), y, font, AlignLeft));
    font := BodyNormal;
    r := Draw(r, Text(": ", LeftMargin + TextWidth(width, font, "Chave PIX"), y, font, AlignLeft));
  }

  /**
   * "Chave PIX: {key} - Banco {bank}" as the generator places it (lines 110-122): each offset
   * is measured in the font set just before the call that uses it, over whole prefixes.
   */
  method DrawBankLine(page: Surface, pixKey: string, bankName: string, y: int, width: Metrics)
    returns (r: Surface)
    requires Drawing(page) && StartsBelow(page, y)
    ensures Drawing(r) && Extends(r, page)
    ensures StartsBelow(r, y + 1)
    ensures Commands(r) == Commands(page) + BankLine(width, pixKey, bankName, y)
  {
    r := DrawPixLabel(page, y, width);
    var font := BodyBold;
    r := Draw(r, Text(pixKey, LeftMargin + TextWidth(width, font, "Chave PIX: "), y, font, AlignLeft));
    font := BodyNormal;
    r := Draw(r, Text(" - ", LeftMargin + TextWidth(width, font, "Chave PIX: ") + TextWidth(width, font, pixKey), y, font, AlignLeft));
    font := BodyBold;
    var x := LeftMargin + TextWidth(width, font, "Chave PIX: ") + TextWidth(width, font, pixKey) + TextWidth(width, font, " - ");
    r := Draw(r, Text("Banco " + bankName, x, y, font, AlignLeft));
  }

  /** "Chave PIX: " end to end: each run placed after the previous one measured in its own font. */
  method DrawPixLabelEndToEnd(page: Surface, y: int, width: Metrics) returns (r: Surface)
    requires Drawing(page) && StartsBelow(page, y)
    ensures Drawing(r) && Extends(r, page)
    ensures Abuts(page, width) ==> Abuts(r, width)
    ensures var x1 := LeftMargin + TextWidth(width, BodyNormal, "Chave ");
      var x2 := x1 + TextWidth(width, BodyBold, "PIX");
      r == Then(Then(Then(page,
        Text("Chave ", LeftMargin, y, BodyNormal, AlignLeft)),
        Text("PIX", x1, y, BodyBold, AlignLeft)),
        Text(": ", x2, y, BodyNormal, AlignLeft))
  {
    var font := BodyNormal;
    var x := LeftMargin;
    r := Draw(page, Text("Chave ", x, y, font, AlignLeft));
    x := x + TextWidth(width, font, "Chave ");
    font := BodyBold;
    r := Draw(r, Text("PIX", x, y, font, AlignLeft));
    x := x + TextWidth(width, font, "PIX");
    font := BodyNormal;
    r := Draw(r, Text(": ", x, y, font, AlignLeft));
  }

  /** The bank line with every run placed after the previous one measured in its own font. */
  method DrawBankLineEndToEnd(page: Surface, pixKey: string, bankName: string, y: int, width: Metrics)
    returns (r: Surface)
    requires Drawing(page) && StartsBelow(page, y)
    ensures Drawing(r) && Extends(r, page)
    ensures StartsBelow(r, y + 1)
    ensures Abuts(page, width) ==> Abuts(r, width)
    ensures var xs := BankOffsets(width, pixKey, bankName);
      r == Then(Then(Then(Then(Then(Then(page,
        Text("Chave ", xs[0], y, BodyNormal, AlignLeft)),
        Text("PIX", xs[1], y, BodyBold, AlignLeft)),
        Text(": ", xs[2], y, BodyNormal, AlignLeft)),
        Text(pixKey, xs[3], y, BodyBold, AlignLeft)),
        Text(" - ", xs[4], y, BodyNormal, AlignLeft)),
        Text("Banco " + bankName, xs[5], y, BodyBold, AlignLeft))
  {
    r := DrawPixLabelEndToEnd(page, y, width);
    var x := LeftMargin + TextWidth(width, BodyNormal, "Chave ") + TextWidth(width, BodyBold, "PIX");
    x := x + TextWidth(width, BodyNormal, ": ");
    var font := BodyBold;
    r := Draw(r, Text(pixKey, x, y, font, AlignLeft));
    assert Abuts(page, width) ==> Abuts(r, width);
    x := x + TextWidth(width, font, pixKey);
    font := BodyNormal;
    r := Draw(r, Text(" - ", x, y, font, AlignLeft));
    x := x + TextWidth(width, font, " - ");
    font := BodyBold;
    r := Draw(r, Text("Banco " + bankName, x, y, font, AlignLeft));
  }

  /** "{city}, {date}" with the city in bold (lines 125-130). */
  method DrawPlaceAndDate(page: Surface, dateText: string, y: int, width: Metrics)
    returns (r: Surface)
    requires Drawing(page) && StartsBelow(page, y)
    ensures Drawing(r) && Extends(r, page)
    ensures StartsBelow(r, y + 1)
    ensures Abuts(page, width) ==> Abuts(r, width)
    ensures Commands(r) == Commands(page) + PlaceAndDate(width, dateText, y)
    ensures var date := Text(", " + dateText, LeftMargin + TextWidth(width, BodyBold, City), y, BodyNormal, AlignLeft);
      r == Then(Then(page, Text(City, LeftMargin, y, BodyBold, AlignLeft)), date)
  {
    var font := BodyBold;
    r := Draw(page, Text(City, LeftMargin, y, font, AlignLeft));
    var cityWidth := TextWidth(width, font, City);
    font := BodyNormal;
    r := Draw(r, Text(", " + dateText, LeftMargin + cityWidth, y, font, AlignLeft));
  }

  /** The signature rule with the payee's name and CPF centred below it (lines 133-138). */
  method DrawSignature(page: Surface, fullName: string, cpf: string, pageWidth: real, y: int)
    returns (r: Surface)
    requires Drawing(page) && StartsBelow(page, y)
    ensures Drawing(r) && Extends(r, page)
    ensures Commands(r) == Commands(page) + Signature(fullName, cpf, pageWidth, y)
    ensures var rule, name, id :=
        Rule(LeftMargin, y, pageWidth - RightMargin),
        Text(fullName, pageWidth / 2.0, y + 10, BodyBold, AlignCenter),
        Text("CPF " + Cpf.FormatCpf(cpf), pageWidth / 2.0, y + 20, BodyNormal, AlignCenter);
      r == Then(Then(Then(page, rule), name), id)
  {
    r := Draw(page, Rule(LeftMargin, y, pageWidth - RightMargin));
    var font := BodyBold;
    r := Draw(r, Text(fullName, pageWidth / 2.0, y + 10, font, AlignCenter));
    font := BodyNormal;
    r := Draw(r, Text("CPF " + Cpf.FormatCpf(cpf), pageWidth / 2.0, y + 20, font, AlignCenter));
  }

  /**
   * The acknowledgement from the cursor after the heading: payment line, amount in words,
   * reference line and legal text, and the cursor after the legal text (lines 62-101).
   */
  method DrawAcknowledgement(page: Surface, words: string, reference: string, host: Host, y: int)
    returns (r: Surface, next: int)
    requires Drawing(page) && StartsBelow(page, y) && y == CursorAt(host.legalLines, 3)
    ensures Drawing(r) && Extends(r, page)
    ensures StartsBelow(r, next) && next == CursorAt(host.legalLines, 5)
    ensures Commands(r) == Commands(page) + PaymentLine(host.metrics, y) +
      [Text(words, LeftMargin, y + 7, BodyBold, AlignLeft)] + ReferenceLine(host.metrics, reference, y + 14) +
      [Wrapped(LegalText, host.legalLines, LeftMargin, CursorAt(host.legalLines, 4),
        host.pageWidth - LeftMargin - RightMargin, BodyNormal, AlignJustify)]
  {
    var advance := Advances(host.legalLines);
    var yPos := y;
    r := DrawPaymentLine(page, yPos, host.metrics);
    r := Draw(r, Text(words, LeftMargin, yPos + 7, BodyBold, AlignLeft));
    r := DrawReferenceLine(r, reference, yPos + 14, host.metrics);
    yPos := yPos + advance[3];
    // Legal text, wrapped to the text width and justified.
    var textWidth := host.pageWidth - LeftMargin - RightMargin;
    r := Draw(r, Wrapped(LegalText, host.legalLines, LeftMargin, yPos, textWidth, BodyNormal, AlignJustify));
    next := yPos + advance[4];
  }

  /** Payee and bank details from the cursor after the legal text, and the cursor after them (lines 103-123). */
  method DrawPayee(page: Surface, payee: Payee, host: Host, y: int) returns (r: Surface, next: int)
    requires Drawing(page) && StartsBelow(page, y) && y == CursorAt(host.legalLines, 5)
    ensures Drawing(r) && Extends(r, page)
    ensures StartsBelow(r, next) && next == CursorAt(host.legalLines, 7)
    ensures Commands(r) == Commands(page) + PayeeLine(host.metrics, payee.fullName, y) +
      BankLine(host.metrics, payee.pixKey, payee.bankName, CursorAt(host.legalLines, 6))
  {
    var advance := Advances(host.legalLines);
    var yPos := y;
    r := DrawPayeeLine(page, payee.fullName, yPos, host.metrics);
    yPos := yPos + advance[5];
    r := DrawBankLine(r, payee.pixKey, payee.bankName, yPos, host.metrics);
    next := yPos + advance[6];
  }

  /** Place and date from the cursor after the bank line, then the signature block (lines 125-138). */
  method DrawClosing(page: Surface, payee: Payee, dateText: string, host: Host, y: int) returns (r: Surface)
    requires Drawing(page) && StartsBelow(page, y) && y == CursorAt(host.legalLines, 7)
    ensures Drawing(r) && Extends(r, page)
    ensures Commands(r) == Commands(page) + PlaceAndDate(host.metrics, dateText, y) +
      Signature(payee.fullName, payee.cpf, host.pageWidth, CursorAt(host.legalLines, 8))
    ensures var yRule, w := CursorAt(host.legalLines, 8), host.pageWidth;
      var date := Text(", " + dateText, LeftMargin + TextWidth(host.metrics, BodyBold, City), y, BodyNormal, AlignLeft);
      var rule := Rule(LeftMargin, yRule, w - RightMargin);
      var name := Text(payee.fullName, w / 2.0, yRule + 10, BodyBold, AlignCenter);
      var id := Text("CPF " + Cpf.FormatCpf(payee.cpf), w / 2.0, yRule + 20, BodyNormal, AlignCenter);
      r == Then(Then(Then(Then(Then(page, Text(City, LeftMargin, y, BodyBold, AlignLeft)), date), rule), name), id)
  {
    var yPos := y;
    r := DrawPlaceAndDate(page, dateText, yPos, host.metrics);
    yPos := yPos + Advances(host.legalLines)[7];
    r := DrawSignature(r, payee.fullName, payee.cpf, host.pageWidth, yPos);
  }

  /**
   * A completed receipt: the log ends with the single save, is laid out top to bottom with
   * margin-aligned lines and opens with the heading.
   */
  ghost predicate Completed(log: seq<Command>, data: ReceiptData, host: Host) {
    |log| > 0 && log[|log| - 1] == Save(FileName) &&
    (forall i :: 0 <= i < |log| && log[i].Save? ==> i == |log| - 1) &&
    TopToBottom(log) && LinesStartAtMargin(log) &&
    log[0] == Heading(host.logoLoaded, data.amount, host.pageWidth)[0]
  }

  /** The saved log of a completed receipt is laid out, saved once at the end and opened by the heading. */
  lemma Saved(page: Surface, data: ReceiptData, host: Host)
    requires Drawing(page)
    requires First(page) == Some(Heading(host.logoLoaded, data.amount, host.pageWidth)[0])
    ensures Completed(Commands(page) + [Save(FileName)], data, host)
  {
    SaveEndsDrawing(page);
    FirstIsHead(page);
  }

  /**
   * Everything a successful generation issues, in order: the heading; the payment line at 80,
   * the amount in words at 87 and the reference line at 94; the legal text at 105; and, with
   * the legal text wrapped to n lines, the payee line at 120 + 7n, the bank line at 130 + 7n,
   * the place and date at 145 + 7n and the signature block from 170 + 7n; then the save.
   */
  function ReceiptLog(data: ReceiptData, host: Host): seq<Command>
    requires data.payee.Some? && AmountInWords(host, data.amount).Some?
  {
    var m, n, w := host.metrics, host.legalLines, host.pageWidth;
    var payee := data.payee.value;
    Heading(host.logoLoaded, data.amount, w) +
    PaymentLine(m, 80) + [Text(AmountInWords(host, data.amount).value, LeftMargin, 87, BodyBold, AlignLeft)] +
    ReferenceLine(m, data.reference, 94) +
    [Wrapped(LegalText, n, LeftMargin, 105, w - LeftMargin - RightMargin, BodyNormal, AlignJustify)] +
    PayeeLine(m, payee.fullName, 120 + 7 * n) + BankLine(m, payee.pixKey, payee.bankName, 130 + 7 * n) +
    PlaceAndDate(m, DateFormat.DateText(DateOf(host, data.date)), 145 + 7 * n) +
    Signature(payee.fullName, payee.cpf, w, 170 + 7 * n) +
    [Save(FileName)]
  }

  /** The commands the three phases append after the heading make up the full receipt log. */
  lemma PhasesMakeReceiptLog(data: ReceiptData, host: Host, c0: seq<Command>, c1: seq<Command>, c2: seq<Command>, c3: seq<Command>)
    requires data.payee.Some? && AmountInWords(host, data.amount).Some?
    requires c0 == Heading(host.logoLoaded, data.amount, host.pageWidth)
    requires var m, n, y := host.metrics, host.legalLines, CursorAt(host.legalLines, 3);
      c1 == c0 + PaymentLine(m, y) +
        [Text(AmountInWords(host, data.amount).value, LeftMargin, y + 7, BodyBold, AlignLeft)] +
        ReferenceLine(m, data.reference, y + 14) +
        [Wrapped(LegalText, n, LeftMargin, CursorAt(n, 4), host.pageWidth - LeftMargin - RightMargin, BodyNormal, AlignJustify)]
    requires var m, n, payee := host.metrics, host.legalLines, data.payee.value;
      c2 == c1 + PayeeLine(m, payee.fullName, CursorAt(n, 5)) +
        BankLine(m, payee.pixKey, payee.bankName, CursorAt(n, 6))
    requires var m, n, payee := host.metrics, host.legalLines, data.payee.value;
      c3 == c2 + PlaceAndDate(m, DateFormat.DateText(DateOf(host, data.date)), CursorAt(n, 7)) +
        Signature(payee.fullName, payee.cpf, host.pageWidth, CursorAt(n, 8))
    ensures c3 + [Save(FileName)] == ReceiptLog(data, host)
  {
    CursorPositions(host.legalLines);
  }

  /**
   * Everything after the amount in words is known (lines 66-141): the acknowledgement, the
   * payee details and the save, continuing the cursor from where the heading left it.
   */
  method CompleteReceipt(page: Surface, data: ReceiptData, host: Host, y: int) returns (log: seq<Command>)
    requires HasRequiredData(data) && AmountInWords(host, data.amount).Some?
    requires Drawing(page) && StartsBelow(page, y) && y == CursorAt(host.legalLines, 3)
    requires Commands(page) == Heading(host.logoLoaded, data.amount, host.pageWidth)
    requires First(page) == Some(Heading(host.logoLoaded, data.amount, host.pageWidth)[0])
    ensures log == ReceiptLog(data, host)
    ensures Completed(log, data, host)
  {
    var payee := data.payee.value;
    var yAck := y;
    var r1, yPos := DrawAcknowledgement(page, AmountInWords(host, data.amount).value, data.reference, host, yAck);
    var yPayee := yPos;
    var r2;
    r2, yPos := DrawPayee(r1, payee, host, yPayee);
    var yClosing := yPos;
    var r := DrawClosing(r2, payee, DateFormat.DateText(DateOf(host, data.date)), host, yClosing);
    log := Commands(r) + [Save(FileName)];
    PhasesMakeReceiptLog(data, host, Commands(page), Commands(r1), Commands(r2), Commands(r));
    Saved(r, data, host);
  }

  /**
   * The receipt generator (lines 16-146). The result says whether the document was composed
   * and saved; `log` is everything issued on the drawing surface, the save included.
   */
  method GenerateReceipt(data: ReceiptData, host: Host) returns (ok: bool, log: seq<Command>)
    ensures ok <==> HasRequiredData(data) && AmountInWords(host, data.amount).Some?
    ensures !HasRequiredData(data) ==> log == []
    ensures HasRequiredData(data) && !ok ==> log == Heading(host.logoLoaded, data.amount, host.pageWidth)
    ensures ok ==> log == ReceiptLog(data, host) && Completed(log, data, host)
  {
    if data.payee.None? || data.amount == [] || data.reference == [] || data.date == [] {
      return false, [];
    }
    var page, yPos := DrawHeading(host, data.amount);

    // The amount in words; a conversion that throws ends the generation with nothing saved.
    if AmountInWords(host, data.amount).None? {
      return false, Commands(page);
    }
    log := CompleteReceipt(page, data, host, yPos);
    ok := true;
  }
}
