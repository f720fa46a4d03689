/** Choosing the document: a file offered through the file picker or by
    drag-and-drop becomes the current file only when its media type is PDF;
    otherwise the current file stays and the status line asks for a PDF. */
module FileSelection {
  import opened Wrappers

  const PdfMediaType := "application/pdf"

  /** Status shown when the picker delivers no PDF ("please select a PDF file"). */
  const SelectPdfMessage := "PDFファイルを選択してください"
  /** Status shown when the drop delivers no PDF ("please drop a PDF file"). */
  const DropPdfMessage := "PDFファイルをドロップしてください"

  datatype OfferedFile = OfferedFile(name: string, mediaType: string)

  /** The part of the form's state that file selection touches. */
  datatype FormState = FormState(file: Option<OfferedFile>, status: string)

  predicate IsPdf(f: OfferedFile) {
    f.mediaType == PdfMediaType
  }

  /** The form never holds a file that is not a PDF. */
  predicate HoldsOnlyPdf(s: FormState) {
    s.file.Some? ==> IsPdf(s.file.value)
  }

  /** Offer a file (or nothing, when the picker or drop delivered none). */
  function Offer(s: FormState, offered: Option<OfferedFile>, rejection: string): (r: FormState)
    ensures offered.Some? && IsPdf(offered.value) ==> r.file == offered && r.status == ""
    ensures !(offered.Some? && IsPdf(offered.value)) ==> r.file == s.file && r.status == rejection
  {
    if offered.Some? && offered.value.mediaType == PdfMediaType then FormState(offered, "")
    else s.(status := rejection)
  }

  /** The file picker's change handler. */
  function HandleFileChange(s: FormState, selected: Option<OfferedFile>): FormState {
    Offer(s, selected, SelectPdfMessage)
  }

  /** The drop zone's drop handler. */
  function HandleDrop(s: FormState, dropped: Option<OfferedFile>): FormState {
    Offer(s, dropped, DropPdfMessage)
  }

  datatype Event = Picked(selected: Option<OfferedFile>) | Dropped(dropped: Option<OfferedFile>)

  /** The form's state after a series of pick and drop events. */
  function Apply(s: FormState, events: seq<Event>): FormState
    decreases |events|
  {
    if events == [] then s
    else
      var next := match events[0]
                  case Picked(f) => HandleFileChange(s, f)
                  case Dropped(f) => HandleDrop(s, f);
      Apply(next, events[1..])
  }

  /** A file is taken up, with the status cleared, exactly when it is a PDF;
      otherwise the current file stays and the handler's own message is shown. */
  lemma AcceptedIffPdf(s: FormState, f: OfferedFile)
    ensures HandleFileChange(s, Some(f))
            == if IsPdf(f) then FormState(Some(f), "") else s.(status := SelectPdfMessage)
    ensures HandleDrop(s, Some(f))
            == if IsPdf(f) then FormState(Some(f), "") else s.(status := DropPdfMessage)
  {
  }

  /** However files are picked and dropped, the form holds only PDFs, and
      the file it holds was either there at the start or offered since. */
  lemma {:induction false} ApplyHoldsOnlyPdf(s: FormState, events: seq<Event>)
    requires HoldsOnlyPdf(s)
    ensures HoldsOnlyPdf(Apply(s, events))
    ensures Apply(s, events).file == s.file ||
            exists k :: 0 <= k < |events| && Apply(s, events).file == Offered(events[k])
    decreases |events|
  {
    if events != [] {
      var next := match events[0]
                  case Picked(f) => HandleFileChange(s, f)
                  case Dropped(f) => HandleDrop(s, f);
      ApplyHoldsOnlyPdf(next, events[1..]);
      var r := Apply(s, events);
      assert r == Apply(next, events[1..]);
      if r.file != next.file {
        var k :| 0 <= k < |events[1..]| && r.file == Offered(events[1..][k]);
        assert events[1..][k] == events[k + 1];
      } else if next.file != s.file {
        assert next.file == Offered(events[0]);
      }
    }
  }

  /** The file an event offers. */
  function Offered(e: Event): Option<OfferedFile> {
    match e
    case Picked(f) => f
    case Dropped(f) => f
  }
}
