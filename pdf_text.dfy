/** extract_text_from_pdf (app.py:74-97): download a PDF and concatenate the text of its pages. */
module PdfText {
  import opened Wrappers
  import opened Services
  import opened Text

  /** What page.extract_text() gave for one page; None when PyPDF2 found no text. */
  type PageText = Option<string>

  /** What requests.get followed by PyPDF2.PdfReader made of a file URL. */
  datatype Download =
    | Downloaded(pages: seq<PageText>)  // fetched with a success status and parsed into pages
    | DownloadFailed(reason: string)    // a RequestException, raise_for_status included
    | ParseFailed(error: Exception)     // raised while parsing; extract_text_from_pdf does not catch it

  /** The page texts the loop appends, in page order: those that are neither None nor empty. */
  function KeptTexts(pages: seq<PageText>): (kept: seq<string>)
    ensures |kept| <= |pages|
    ensures forall i :: 0 <= i < |kept| ==> kept[i] != ""
    ensures forall t :: t in kept ==> Some(t) in pages
  {
    if pages == [] then []
    else
      (if pages[0].Some? && pages[0].value != "" then [pages[0].value] else [])
      + KeptTexts(pages[1..])
  }

  /** The value extract_text_from_pdf returns (Some(text), or None for a failed download) or raises. */
  function ExtractedText(download: Download): (r: Result<Option<string>, Exception>)
    ensures r == Success(None) <==> download.DownloadFailed?
    ensures r.Failure? <==> download.ParseFailed?
    ensures r.Failure? ==> r.error == download.error
    ensures download.Downloaded? ==> r == Success(Some(Concat(KeptTexts(download.pages))))
  {
    match download
    case Downloaded(pages) => Success(Some(Concat(KeptTexts(pages))))
    case DownloadFailed(_) => Success(None)
    case ParseFailed(e) => Failure(e)
  }

  lemma {:induction false} KeptTextsAppend(a: seq<PageText>, b: seq<PageText>)
    ensures KeptTexts(a + b) == KeptTexts(a) + KeptTexts(b)
  {
    if a == [] {
      assert a + b == b;
    } else {
      assert (a + b)[0] == a[0];
      assert (a + b)[1..] == a[1..] + b;
      KeptTextsAppend(a[1..], b);
    }
  }

  /** The text of a document is the text of its first part followed by the text of the rest. */
  lemma PdfTextAppend(a: seq<PageText>, b: seq<PageText>)
    ensures Concat(KeptTexts(a + b)) == Concat(KeptTexts(a)) + Concat(KeptTexts(b))
  {
    KeptTextsAppend(a, b);
    ConcatAppend(KeptTexts(a), KeptTexts(b));
  }

  /** A page with no text, None or empty, changes nothing wherever it stands. */
  lemma BlankPageContributesNothing(a: seq<PageText>, blank: PageText, b: seq<PageText>)
    requires blank == None || blank == Some("")
    ensures Concat(KeptTexts(a + [blank] + b)) == Concat(KeptTexts(a + b))
  {
    KeptTextsAppend(a + [blank], b);
    KeptTextsAppend(a, [blank]);
    KeptTextsAppend(a, b);
    assert [blank][1..] == [];
    assert KeptTexts([blank]) == [];
    assert KeptTexts(a) + [] == KeptTexts(a);
  }

  /** The loop's step: one more page appends its text when it has one. */
  lemma PdfTextSnoc(a: seq<PageText>, page: PageText)
    ensures Concat(KeptTexts(a + [page])) ==
      Concat(KeptTexts(a)) + (if page.Some? && page.value != "" then page.value else "")
  {
    PdfTextAppend(a, [page]);
    assert [page][1..] == [];
    if page.Some? && page.value != "" {
      assert KeptTexts([page]) == [page.value];
      assert Concat([page.value]) == page.value + Concat([]);
    } else {
      assert KeptTexts([page]) == [];
    }
  }

  method ExtractTextFromPdf(download: Download) returns (r: Result<Option<string>, Exception>)
    ensures download.DownloadFailed? ==> r == Success(None)
    ensures download.ParseFailed? ==> r == Failure(download.error)
    ensures download.Downloaded? ==> r == Success(Some(Concat(KeptTexts(download.pages))))
  {
    match download
    case DownloadFailed(_) =>
      r := Success(None);
    case ParseFailed(e) =>
      r := Failure(e);
    case Downloaded(pages) =>
      var text := "";
      for i := 0 to |pages|
        invariant text == Concat(KeptTexts(pages[..i]))
      {
        var pageText := pages[i];
        if pageText.Some? && pageText.value != "" {
          text := text + pageText.value;
        }
        assert pages[..i + 1] == pages[..i] + [pageText];
        PdfTextSnoc(pages[..i], pageText);
      }
      assert pages[..|pages|] == pages;
      r := Success(Some(text));
  }
}
