/** `extract_pdf` of agent.py: the datasheet text is the text of the
    document's first pages, in order. A page is given by what its text
    extraction returned: `None` or a string. */
module Pdf {
  import opened Options

  /** Only this many leading pages are read. */
  const PageCap: nat := 78

  /** `page.extract_text() or ""`: a page without text contributes nothing. */
  function PageText(page: Option<string>): string
  {
    if page.Some? then page.value else ""
  }

  /** The texts of all `pages`, concatenated in order. */
  function PagesText(pages: seq<Option<string>>): string
  {
    if pages == [] then ""
    else PagesText(pages[..|pages| - 1]) + PageText(pages[|pages| - 1])
  }

  /** The text `extract_pdf` returns for a document with these pages. */
  function PdfText(pages: seq<Option<string>>): string
  {
    PagesText(pages[..if |pages| < PageCap then |pages| else PageCap])
  }

  lemma {:induction false} PagesTextAppend(a: seq<Option<string>>, b: seq<Option<string>>)
    ensures PagesText(a + b) == PagesText(a) + PagesText(b)
    decreases |b|
  {
    if b == [] {
      assert a + b == a;
    } else {
      var b', last := b[..|b| - 1], b[|b| - 1];
      var ab := a + b;
      assert ab[..|ab| - 1] == a + b' && ab[|ab| - 1] == last;
      assert PagesText(ab) == PagesText(a + b') + PageText(last);
      PagesTextAppend(a, b');
      assert PagesText(b) == PagesText(b') + PageText(last);
    }
  }

  lemma SinglePage(page: Option<string>)
    ensures PagesText([page]) == PageText(page)
  {
  }

  /** Page k's text sits between the text of the pages before it and the
      text of the pages after it. */
  lemma PageTextInPlace(before: seq<Option<string>>, page: Option<string>, after: seq<Option<string>>)
    ensures PagesText(before + [page] + after) == PagesText(before) + PageText(page) + PagesText(after)
  {
    PagesTextAppend(before + [page], after);
    PagesTextAppend(before, [page]);
    SinglePage(page);
  }

  /** A page whose extraction gave `None` reads the same as an empty page,
      and contributes nothing. */
  lemma MissingPageContributesNothing(a: seq<Option<string>>, b: seq<Option<string>>)
    ensures PagesText(a + [None] + b) == PagesText(a + [Some("")] + b) == PagesText(a + b)
  {
    PageTextInPlace(a, None, b);
    PageTextInPlace(a, Some(""), b);
    PagesTextAppend(a, b);
  }

  /** Pages after the cap never reach the datasheet text. */
  lemma PagesPastCapIgnored(pages: seq<Option<string>>, more: seq<Option<string>>)
    requires |pages| >= PageCap
    ensures PdfText(pages + more) == PdfText(pages)
  {
    assert (pages + more)[..PageCap] == pages[..PageCap];
  }

  /** Below the cap, every page is read. */
  lemma ShortDocumentReadWhole(pages: seq<Option<string>>)
    requires |pages| <= PageCap
    ensures PdfText(pages) == PagesText(pages)
  {
    assert pages[..|pages|] == pages;
  }

  /** `extract_pdf`: appends each page's text, over at most the first
      `PageCap` pages. */
  method ExtractPdf(pages: seq<Option<string>>) returns (text: string)
    ensures text == PdfText(pages)
  {
    var n := if |pages| < PageCap then |pages| else PageCap;
    text := "";
    var i := 0;
    while i < n
      invariant 0 <= i <= n
      invariant text == PagesText(pages[..i])
    {
      assert pages[..i + 1][..i] == pages[..i];
      text := text + PageText(pages[i]);
      i := i + 1;
    }
  }
}
