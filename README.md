# PDF page numberer — a Dafny model of the numbering pass

This project models the core of a browser tool that stamps page numbers onto a
PDF document. The model covers the numbering pass of `addPageNumbers`. For each
page, in ascending order, the pass decides whether the page is a skipped cover
page. If it is not, the pass computes the page's number and its label
(`"<n> / <total>"` or `"<n>"`), places the label by alignment and position,
and draws it. The displayed total is computed once, before the loop. The model
also covers the rule that accepts a chosen or dropped file only when its
media type is `application/pdf`.

Files:

- `wrappers.dfy`: the `Option` type.
- `decimal.dfy`: how a template literal renders an integer (`IntToString`), plus a parser (`ParseInt`) that reads it back.
- `page_numberer.dfy`: the options record and the per-page arithmetic (`Skipped`, `FirstNumbered`, `DisplayTotal`, `PageNumber`, `Label`, `XPosition`, `YPosition`, `Draw`).
  - It also holds the specification of the whole pass (`CommandsUpTo`, `Commands`), the imperative loop `AddPageNumbers` proved against it, and the lemmas about the pass.
  - Drawing on a page is modelled as appending a `DrawCommand` (page index, text, x, y, font size) to the pass's output.
  - A page is given by its width and height.
  - The font's text measurement is a parameter of type `(string, real) -> real`.
- `file_selection.dfy`: the picker and drop handlers as functions on the form's file/status state, and the invariant that the form only ever holds a PDF.

`startPage` and `coverPagesToSkip` are unbounded integers. The pass does not
range-check either one. The form's cover-count input carries `min="1"`
(src/components/PdfPageNumberer.tsx:269), but a browser does not enforce that
on typed values, and the model follows the pass. With a negative count no page
is skipped. With a count of at least the page count every page is skipped and
nothing is drawn.

## Model

| member | source | states |
|---|---|---|
| Decimal.NatToString | src/components/PdfPageNumberer.tsx:115-117 | the numeral of a natural number is a non-empty string of digits with no leading zero |
| Decimal.IntToString | src/components/PdfPageNumberer.tsx:115-117 | a rendered integer is non-empty, starts with '-' exactly when negative, and contains no space |
| Decimal.ParseIntToString | src/components/PdfPageNumberer.tsx:115-117 | reading back the rendering of any integer yields that integer |
| Decimal.IntToStringInjective | src/components/PdfPageNumberer.tsx:115-117 | distinct page numbers are rendered as distinct texts |
| PageNumberer.FirstNumbered | src/components/PdfPageNumberer.tsx:106-108 | page i < N is skipped exactly when it lies before the first numbered page f, with f <= N |
| PageNumberer.Label | src/components/PdfPageNumberer.tsx:105-117 | a page has no label exactly when cover-skip is on and its index is below the cover count |
| PageNumberer.ParseLabelText | src/components/PdfPageNumberer.tsx:115-117 | "<n> / <t>" decodes to n and t, and "<n>" decodes to n with no total |
| PageNumberer.LabelDecodes | src/components/PdfPageNumberer.tsx:111-117 | a non-skipped page's label carries its page number and, if totals are shown, the document's displayed total |
| PageNumberer.XPosition | src/components/PdfPageNumberer.tsx:122-133 | left: x = 50; right: the right edge of the text is 50 from the page's right edge; center: equal left and right margins |
| PageNumberer.YPosition | src/components/PdfPageNumberer.tsx:136 | header: baseline 30 below the top edge; any other position: baseline at 30 |
| PageNumberer.Draw | src/components/PdfPageNumberer.tsx:105-145 | page i is drawn on exactly when it is not skipped, and then with page index i and the configured font size |
| PageNumberer.AddPageNumbers | src/components/PdfPageNumberer.tsx:91-146 | the loop, with its total computed once and its `continue` on cover pages, issues exactly the commands of the specification `Commands` |
| PageNumberer.CommandsUpToShape | src/components/PdfPageNumberer.tsx:101-108 | after k pages the output is the draws of the pages from the first numbered one up to k-1, in order |
| PageNumberer.CommandsShape | src/components/PdfPageNumberer.tsx:101-145 | the output has N - f commands, and the j-th is the draw of page f + j |
| PageNumberer.DrawnIffNotSkipped | src/components/PdfPageNumberer.tsx:101-108 | every command is on a non-skipped page, and every non-skipped page has a command |
| PageNumberer.CoverPagesUnlabelled | src/components/PdfPageNumberer.tsx:106-108 | with cover-skip on, no page below the cover count is drawn on, and nothing is drawn when the cover count reaches N |
| PageNumberer.EveryPageNumberedWithoutSkip | src/components/PdfPageNumberer.tsx:101-117 | with cover-skip off, there are N commands and the j-th is on page j with number j + startPage |
| PageNumberer.FirstNumberedShowsStartPage | src/components/PdfPageNumberer.tsx:106-117 | with cover-skip on and 0 <= covers < N, there are N - covers commands and the first is on page `covers` showing startPage |
| PageNumberer.ConsecutiveLabels | src/components/PdfPageNumberer.tsx:101-117 | commands are in strictly ascending page order with no gaps, and the numbers they show go up by one per command |
| PageNumberer.SameTotalAndSizeOnEveryPage | src/components/PdfPageNumberer.tsx:94-145 | every command uses the configured font size, and every label shows the same displayed total, exactly when totals are included |
| PageNumberer.CommandPlacement | src/components/PdfPageNumberer.tsx:121-136 | every drawn label sits at its alignment's margin and its position's baseline, measured with that label's own width |
| PageNumberer.DisplayTotalCountsLabels | src/components/PdfPageNumberer.tsx:94-98 | the total is N when skipped covers count; it is the number of labelled pages without cover-skip, or when covers are excluded and 0 <= covers <= N |
| PageNumberer.LastLabelShowsTotal | src/components/PdfPageNumberer.tsx:94-117 | numbering from 1 with covers not counted (or no skip), for any cover count, the last label reads "<total> / <total>" |
| PageNumberer.DefaultOptionsScenario | src/components/PdfPageNumberer.tsx:20-29 | with the form's default options a 10-page document shows "1 / 10" on page 0 and "10 / 10" on page 9 |
| PageNumberer.OneCoverSkippedScenario | src/components/PdfPageNumberer.tsx:94-117 | with one cover skipped and not counted: no label on page 0, "1 / 9" on page 1, "9 / 9" on page 9 |
| FileSelection.Offer | src/components/PdfPageNumberer.tsx:34-42 | a PDF becomes the current file and clears the status; anything else leaves the file and shows the rejection message |
| FileSelection.AcceptedIffPdf | src/components/PdfPageNumberer.tsx:34-65 | the picker and the drop take up an offered file and clear the status exactly when it is a PDF; otherwise they keep the current file and show their own rejection message |
| FileSelection.ApplyHoldsOnlyPdf | src/components/PdfPageNumberer.tsx:34-65 | after any series of picks and drops the form holds only a PDF, either the initial file or one offered since |

## Left out

- The React state hooks, the drag-over and drag-leave handlers, the option-change handler and the JSX form. These are UI glue.
- The missing-file guard, the `processing` flag, the try/catch/finally around the pass and its status messages (PdfPageNumberer.tsx:74-83, 160-166). These are asynchronous sequencing and UI messages.
- Loading the document, embedding Helvetica, getting the pages and sizes, and saving (pdf-lib calls). Pages are a given sequence of sizes, and drawing is appending to the output.
- The colour (black) and font (Helvetica) of the drawn text. They are the same for every page, so `DrawCommand` does not record them.
- `widthOfTextAtSize`. Its font metrics are foreign, so the text width comes from the `measure` parameter.
- The download through a Blob, an object URL and a synthesized link click, including the `numbered_` file name. This is browser I/O.
- Floating-point arithmetic. Placement uses exact `real` arithmetic, and page numbers and counts are unbounded integers.
- Options read with `Number(...)` from the form may be fractional or NaN, integers beyond 2^53 lose precision, and integral numbers of magnitude 10^21 and more are written in exponent form ("1e+21"). The model treats `startPage` and `coverPagesToSkip` as mathematical integers and always renders them as plain decimal numerals.
- App.tsx only renders the component.
- FirstNumberedShowsStartPage: stated only for 0 <= coverPagesToSkip < page count. With a negative count nothing is skipped, and page 0 shows startPage - coverPagesToSkip. With a count of at least the page count nothing is drawn (CoverPagesUnlabelled).
