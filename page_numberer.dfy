/** The page-numbering pass of the PDF page numberer: which pages get a
    number, what the number and its label are, where the label goes on the
    page, and the loop that draws one label per numbered page.

    Pages are given by their sizes, the font's text measurement is a
    parameter, and drawing on a page is recorded as a DrawCommand appended to
    the pass's output, in the order the pages are drawn on. */
module PageNumberer {
  import opened Wrappers
  import opened Decimal

  datatype Position = Header | Footer
  datatype Alignment = Left | Center | Right

  /** The options record of the numbering form. startPage and
      coverPagesToSkip are not range-checked anywhere, so any integer. */
  datatype PageNumberOptions = PageNumberOptions(
    position: Position,
    alignment: Alignment,
    includeTotalPages: bool,
    startPage: int,
    fontSize: real,
    skipCoverPages: bool,
    coverPagesToSkip: int,
    includeCoverInTotal: bool)

  /** The options the form starts with. */
  const DefaultOptions := PageNumberOptions(Footer, Center, true, 1, 12.0, false, 1, true)

  /** Distance of a left- or right-aligned label from the page's side edge. */
  const SideMargin: real := 50.0
  /** Distance of the label's baseline from the top (header) or bottom (footer) edge. */
  const BaselineOffset: real := 30.0

  datatype PageSize = PageSize(width: real, height: real)

  /** One call of the page's text-drawing operation: which page, what text,
      where, and at which font size. */
  datatype DrawCommand = DrawCommand(page: nat, text: string, x: real, y: real, size: real)

  /** Width of a text at a font size, as the embedded font measures it. */
  type TextMeasure = (string, real) -> real

  // ---------------------------------------------------------------------
  // Per-page arithmetic

  /** A leading cover page that gets no number. */
  predicate Skipped(i: nat, opts: PageNumberOptions) {
    opts.skipCoverPages && i < opts.coverPagesToSkip
  }

  /** The first page index that gets a number in a document of n pages
      (n when none does). */
  function FirstNumbered(n: nat, opts: PageNumberOptions): (f: nat)
    ensures f <= n
    ensures forall i: nat :: i < n ==> (Skipped(i, opts) <==> i < f)
  {
    if !opts.skipCoverPages || opts.coverPagesToSkip <= 0 then 0
    else if opts.coverPagesToSkip >= n then n
    else opts.coverPagesToSkip
  }

  /** The total shown after the slash, computed once for the whole document. */
  function DisplayTotal(n: nat, opts: PageNumberOptions): int {
    if opts.skipCoverPages && !opts.includeCoverInTotal then n - opts.coverPagesToSkip else n
  }

  /** The number shown on page i: cover pages, when skipped, do not count. */
  function PageNumber(i: nat, opts: PageNumberOptions): int {
    if opts.skipCoverPages then i - opts.coverPagesToSkip + opts.startPage else i + opts.startPage
  }

  /** "<number> / <total>" or "<number>". */
  function LabelText(number: int, total: int, includeTotal: bool): string {
    if includeTotal then IntToString(number) + " / " + IntToString(total) else IntToString(number)
  }

  /** The label drawn on page i of an n-page document; none on a skipped cover page. */
  function Label(i: nat, n: nat, opts: PageNumberOptions): (r: Option<string>)
    ensures r.None? <==> Skipped(i, opts)
  {
    if Skipped(i, opts) then None
    else Some(LabelText(PageNumber(i, opts), DisplayTotal(n, opts), opts.includeTotalPages))
  }

  /** Horizontal position of a label of width textWidth on a page of width pageWidth. */
  function XPosition(alignment: Alignment, pageWidth: real, textWidth: real): (x: real)
    ensures alignment == Left ==> x == SideMargin
    ensures alignment == Right ==> pageWidth - (x + textWidth) == SideMargin
    ensures alignment == Center ==> x == pageWidth - (x + textWidth)
  {
    match alignment
    case Left => SideMargin
    case Right => pageWidth - textWidth - SideMargin
    case Center => (pageWidth - textWidth) / 2.0
  }

  /** Vertical position of the label's baseline on a page of height pageHeight. */
  function YPosition(position: Position, pageHeight: real): (y: real)
    ensures position == Header ==> pageHeight - y == BaselineOffset
    ensures position == Footer ==> y == BaselineOffset
  {
    if position == Header then pageHeight - BaselineOffset else BaselineOffset
  }

  /** What the pass draws on page i, if anything. */
  function Draw(pages: seq<PageSize>, opts: PageNumberOptions, measure: TextMeasure, i: nat): (c: Option<DrawCommand>)
    requires i < |pages|
    ensures c.Some? <==> !Skipped(i, opts)
    ensures c.Some? ==> c.value.page == i && c.value.size == opts.fontSize
  {
    match Label(i, |pages|, opts)
    case None => None
    case Some(text) =>
      var textWidth := measure(text, opts.fontSize);
      Some(DrawCommand(i, text,
                       XPosition(opts.alignment, pages[i].width, textWidth),
                       YPosition(opts.position, pages[i].height),
                       opts.fontSize))
  }

  // ---------------------------------------------------------------------
  // The whole pass

  /** The draw commands issued for pages 0 .. k-1, in page order. */
  function CommandsUpTo(pages: seq<PageSize>, opts: PageNumberOptions, measure: TextMeasure, k: nat): seq<DrawCommand>
    requires k <= |pages|
    decreases k
  {
    if k == 0 then []
    else
      CommandsUpTo(pages, opts, measure, k - 1) +
      match Draw(pages, opts, measure, k - 1)
      case None => []
      case Some(c) => [c]
  }

  /** The draw commands issued for the whole document. */
  function Commands(pages: seq<PageSize>, opts: PageNumberOptions, measure: TextMeasure): seq<DrawCommand> {
    CommandsUpTo(pages, opts, measure, |pages|)
  }

  /** The numbering loop: the displayed total is computed once, then each
      page in ascending order is either skipped or labelled and drawn on. */
  method AddPageNumbers(pages: seq<PageSize>, opts: PageNumberOptions, measure: TextMeasure)
    returns (drawn: seq<DrawCommand>)
    ensures drawn == Commands(pages, opts, measure)
  {
    var totalPagesInDoc := |pages|;
    var displayTotalPages := if opts.skipCoverPages && !opts.includeCoverInTotal
                             then totalPagesInDoc - opts.coverPagesToSkip
                             else totalPagesInDoc;
    drawn := [];
    for i := 0 to totalPagesInDoc
      invariant drawn == CommandsUpTo(pages, opts, measure, i)
    {
      var page := pages[i];
      if opts.skipCoverPages && i < opts.coverPagesToSkip {
        continue;
      }
      var pageNumber := if opts.skipCoverPages
                        then i - opts.coverPagesToSkip + opts.startPage
                        else i + opts.startPage;
      var text := if opts.includeTotalPages
                  then IntToString(pageNumber) + " / " + IntToString(displayTotalPages)
                  else IntToString(pageNumber);
      var textWidth := measure(text, opts.fontSize);
      var x: real;
      match opts.alignment {
        case Left => x := SideMargin;
        case Right => x := page.width - textWidth - SideMargin;
        case Center => x := (page.width - textWidth) / 2.0;
      }
      var y := if opts.position == Header then page.height - BaselineOffset else BaselineOffset;
      drawn := drawn + [DrawCommand(i, text, x, y, opts.fontSize)];
    }
  }

  // ---------------------------------------------------------------------
  // Reading a label back

  datatype LabelFields = LabelFields(number: int, total: Option<int>)

  /** Index of the first space in s, or |s| when there is none. */
  function SpaceIndex(s: string): (k: nat)
    ensures k <= |s|
    ensures k < |s| ==> s[k] == ' '
    ensures forall j :: 0 <= j < k ==> s[j] != ' '
  {
    if s == [] || s[0] == ' ' then 0 else 1 + SpaceIndex(s[1..])
  }

  /** Splits "<number> / <total>" or "<number>" back into its numbers. */
  function ParseLabel(s: string): Option<LabelFields> {
    var k := SpaceIndex(s);
    if k == |s| then
      match ParseInt(s)
      case Some(n) => Some(LabelFields(n, None))
      case None => None
    else if k + 3 <= |s| && s[k..k + 3] == " / " then
      match (ParseInt(s[..k]), ParseInt(s[k + 3..]))
      case (Some(n), Some(t)) => Some(LabelFields(n, Some(t)))
      case _ => None
    else None
  }

  /** A label states its page number, and the total exactly when asked to. */
  lemma ParseLabelText(number: int, total: int, includeTotal: bool)
    ensures ParseLabel(LabelText(number, total, includeTotal))
            == Some(LabelFields(number, if includeTotal then Some(total) else None))
  {
    var a, b := IntToString(number), IntToString(total);
    ParseIntToString(number);
    ParseIntToString(total);
    if includeTotal {
      var s := a + " / " + b;
      var k := SpaceIndex(s);
      assert s[|a|] == ' ';
      assert forall j :: 0 <= j < |a| ==> s[j] == a[j];
      assert k == |a|;
      assert s[..k] == a;
      assert s[k..k + 3] == " / ";
      assert s[k + 3..] == b;
    } else {
      assert SpaceIndex(a) == |a|;
    }
  }

  /** The total a label of an n-page document carries, if any. */
  function ShownTotal(n: nat, opts: PageNumberOptions): Option<int> {
    if opts.includeTotalPages then Some(DisplayTotal(n, opts)) else None
  }

  /** Every label decodes to its page's number and, when totals are shown,
      to the one displayed total of the document. */
  lemma LabelDecodes(i: nat, n: nat, opts: PageNumberOptions)
    requires !Skipped(i, opts)
    ensures ParseLabel(Label(i, n, opts).value) == Some(LabelFields(PageNumber(i, opts), ShownTotal(n, opts)))
  {
    ParseLabelText(PageNumber(i, opts), DisplayTotal(n, opts), opts.includeTotalPages);
  }

  // ---------------------------------------------------------------------
  // Properties of the pass

  /** The commands for pages 0 .. k-1 are exactly the draws of the numbered
      pages among them, in page order with no gaps. */
  lemma {:induction false} CommandsUpToShape(pages: seq<PageSize>, opts: PageNumberOptions, measure: TextMeasure, k: nat)
    requires k <= |pages|
    ensures var f, cs := FirstNumbered(|pages|, opts), CommandsUpTo(pages, opts, measure, k);
            |cs| == (if k <= f then 0 else k - f) &&
            forall j :: 0 <= j < |cs| ==> Draw(pages, opts, measure, f + j) == Some(cs[j])
    decreases k
  {
    if k > 0 {
      CommandsUpToShape(pages, opts, measure, k - 1);
    }
  }

  /** The pass draws on pages f, f+1, ..., N-1 (f the first numbered page),
      one command each, and on no other page. */
  lemma CommandsShape(pages: seq<PageSize>, opts: PageNumberOptions, measure: TextMeasure)
    ensures var f, cs := FirstNumbered(|pages|, opts), Commands(pages, opts, measure);
            |cs| == |pages| - f &&
            forall j :: 0 <= j < |cs| ==> cs[j].page == f + j && Draw(pages, opts, measure, f + j) == Some(cs[j])
  {
    CommandsUpToShape(pages, opts, measure, |pages|);
  }

  /** A page is drawn on exactly when it is not a skipped cover page. */
  lemma DrawnIffNotSkipped(pages: seq<PageSize>, opts: PageNumberOptions, measure: TextMeasure)
    ensures var cs := Commands(pages, opts, measure);
            (forall j :: 0 <= j < |cs| ==> cs[j].page < |pages| && !Skipped(cs[j].page, opts)) &&
            forall i: nat :: i < |pages| ==>
              (!Skipped(i, opts) <==> exists j :: 0 <= j < |cs| && cs[j].page == i)
  {
    var f, cs := FirstNumbered(|pages|, opts), Commands(pages, opts, measure);
    CommandsShape(pages, opts, measure);
    forall i: nat | i < |pages| && !Skipped(i, opts)
      ensures exists j :: 0 <= j < |cs| && cs[j].page == i
    {
      assert cs[i - f].page == i;
    }
  }

  /** With cover-skip on, no cover page gets a label; when the cover count
      reaches the page count, nothing is drawn at all. */
  lemma CoverPagesUnlabelled(pages: seq<PageSize>, opts: PageNumberOptions, measure: TextMeasure)
    requires opts.skipCoverPages
    ensures var cs := Commands(pages, opts, measure);
            (forall j :: 0 <= j < |cs| ==> cs[j].page >= opts.coverPagesToSkip) &&
            (opts.coverPagesToSkip >= |pages| ==> cs == [])
  {
    CommandsShape(pages, opts, measure);
  }

  /** With cover-skip off, page i gets exactly one label, numbered i + startPage. */
  lemma EveryPageNumberedWithoutSkip(pages: seq<PageSize>, opts: PageNumberOptions, measure: TextMeasure)
    requires !opts.skipCoverPages
    ensures var cs := Commands(pages, opts, measure);
            |cs| == |pages| &&
            forall j :: 0 <= j < |cs| ==>
              cs[j].page == j && ParseLabel(cs[j].text) == Some(LabelFields(j + opts.startPage, ShownTotal(|pages|, opts)))
  {
    var cs := Commands(pages, opts, measure);
    CommandsShape(pages, opts, measure);
    forall j | 0 <= j < |cs|
      ensures ParseLabel(cs[j].text) == Some(LabelFields(j + opts.startPage, ShownTotal(|pages|, opts)))
    {
      LabelDecodes(j, |pages|, opts);
    }
  }

  /** With cover-skip on and fewer covers than pages, the first label is on
      the first page after the covers and shows startPage. */
  lemma FirstNumberedShowsStartPage(pages: seq<PageSize>, opts: PageNumberOptions, measure: TextMeasure)
    requires opts.skipCoverPages && 0 <= opts.coverPagesToSkip < |pages|
    ensures var cs := Commands(pages, opts, measure);
            |cs| == |pages| - opts.coverPagesToSkip &&
            cs[0].page == opts.coverPagesToSkip &&
            ParseLabel(cs[0].text) == Some(LabelFields(opts.startPage, ShownTotal(|pages|, opts)))
  {
    CommandsShape(pages, opts, measure);
    LabelDecodes(opts.coverPagesToSkip, |pages|, opts);
  }

  /** Commands come in strictly ascending page order with no page left out
      between two of them, and the numbers they show go up by exactly one
      from each command to the next. */
  lemma ConsecutiveLabels(pages: seq<PageSize>, opts: PageNumberOptions, measure: TextMeasure)
    ensures var cs := Commands(pages, opts, measure);
            forall j, l :: 0 <= j < l < |cs| ==>
              cs[l].page - cs[j].page == l - j &&
              ParseLabel(cs[j].text).Some? && ParseLabel(cs[l].text).Some? &&
              ParseLabel(cs[l].text).value.number - ParseLabel(cs[j].text).value.number == l - j
  {
    var cs := Commands(pages, opts, measure);
    CommandsShape(pages, opts, measure);
    forall j | 0 <= j < |cs|
      ensures ParseLabel(cs[j].text) == Some(LabelFields(PageNumber(cs[j].page, opts), ShownTotal(|pages|, opts)))
    {
      LabelDecodes(cs[j].page, |pages|, opts);
    }
  }

  /** Every label carries the same total, the displayed total, exactly when
      totals are shown; and every command uses the configured font size. */
  lemma SameTotalAndSizeOnEveryPage(pages: seq<PageSize>, opts: PageNumberOptions, measure: TextMeasure)
    ensures var cs := Commands(pages, opts, measure);
            forall j :: 0 <= j < |cs| ==>
              cs[j].size == opts.fontSize &&
              ParseLabel(cs[j].text).Some? &&
              ParseLabel(cs[j].text).value.total == ShownTotal(|pages|, opts)
  {
    var cs := Commands(pages, opts, measure);
    CommandsShape(pages, opts, measure);
    forall j | 0 <= j < |cs|
      ensures ParseLabel(cs[j].text) == Some(LabelFields(PageNumber(cs[j].page, opts), ShownTotal(|pages|, opts)))
    {
      LabelDecodes(cs[j].page, |pages|, opts);
    }
  }

  /** Every command sits where its alignment and position put it: 50 units
      from the left or right edge, or with equal side margins when centred,
      and 30 units below the top or above the bottom edge. */
  lemma CommandPlacement(pages: seq<PageSize>, opts: PageNumberOptions, measure: TextMeasure)
    ensures var cs := Commands(pages, opts, measure);
            forall j :: 0 <= j < |cs| ==>
              var c := cs[j];
              c.page < |pages| &&
              var w, size := measure(c.text, c.size), pages[c.page];
              (opts.alignment == Left ==> c.x == SideMargin) &&
              (opts.alignment == Right ==> size.width - (c.x + w) == SideMargin) &&
              (opts.alignment == Center ==> c.x == size.width - (c.x + w)) &&
              (opts.position == Header ==> size.height - c.y == BaselineOffset) &&
              (opts.position == Footer ==> c.y == BaselineOffset)
  {
    CommandsShape(pages, opts, measure);
  }

  /** The displayed total counts the labelled pages, unless skipped covers
      are asked to count too, in which case it is the page count. */
  lemma DisplayTotalCountsLabels(pages: seq<PageSize>, opts: PageNumberOptions, measure: TextMeasure)
    ensures opts.skipCoverPages && opts.includeCoverInTotal ==> DisplayTotal(|pages|, opts) == |pages|
    ensures !opts.skipCoverPages || (!opts.includeCoverInTotal && 0 <= opts.coverPagesToSkip <= |pages|)
            ==> DisplayTotal(|pages|, opts) == |Commands(pages, opts, measure)|
  {
    CommandsShape(pages, opts, measure);
  }

  /** Numbering from 1, the last label shows the displayed total, as in
      "10 / 10" or, after one skipped cover, "9 / 9". */
  lemma LastLabelShowsTotal(pages: seq<PageSize>, opts: PageNumberOptions, measure: TextMeasure)
    requires opts.startPage == 1 && opts.includeTotalPages
    requires !opts.skipCoverPages || !opts.includeCoverInTotal
    requires |Commands(pages, opts, measure)| > 0
    ensures var cs := Commands(pages, opts, measure);
            ParseLabel(cs[|cs| - 1].text) == Some(LabelFields(DisplayTotal(|pages|, opts), Some(DisplayTotal(|pages|, opts))))
  {
    var cs := Commands(pages, opts, measure);
    CommandsShape(pages, opts, measure);
    LabelDecodes(cs[|cs| - 1].page, |pages|, opts);
  }

  /** Ten pages with the form's default options: "1 / 10" first, "10 / 10" last. */
  lemma DefaultOptionsScenario()
    ensures Label(0, 10, DefaultOptions) == Some("1 / 10")
    ensures Label(9, 10, DefaultOptions) == Some("10 / 10")
  {
    assert IntToString(1) == "1" && IntToString(10) == "10";
    assert Label(0, 10, DefaultOptions) == Some("1" + " / " + "10");
    assert "1" + " / " + "10" == "1 / 10";
    assert Label(9, 10, DefaultOptions) == Some("10" + " / " + "10");
    assert "10" + " / " + "10" == "10 / 10";
  }

  /** Ten pages, one cover skipped and not counted: none, "1 / 9", ..., "9 / 9". */
  lemma OneCoverSkippedScenario()
    ensures var opts := DefaultOptions.(skipCoverPages := true, coverPagesToSkip := 1, includeCoverInTotal := false);
            Label(0, 10, opts) == None &&
            Label(1, 10, opts) == Some("1 / 9") &&
            Label(9, 10, opts) == Some("9 / 9")
  {
    var opts := DefaultOptions.(skipCoverPages := true, coverPagesToSkip := 1, includeCoverInTotal := false);
    assert IntToString(1) == "1" && IntToString(9) == "9";
    assert Label(1, 10, opts) == Some("1" + " / " + "9");
    assert "1" + " / " + "9" == "1 / 9";
    assert Label(9, 10, opts) == Some("9" + " / " + "9");
    assert "9" + " / " + "9" == "9 / 9";
  }
}
