/** Page-text assembly of the paper analyser (`extract_text_from_pdf`): every
    page whose extraction returns text adds a numbered block, a page whose
    extraction is empty or raises is skipped, and the two failures are
    reported as messages that begin with "❌".  Opening the file and
    extracting each page are inputs. */
module PdfText {
  import opened Text
  import opened Basics

  const NO_TEXT := "❌ PDF에서 텍스트를 추출할 수 없습니다."
  const PROCESSING_ERROR := "❌ PDF 처리 오류: "
  const ERROR_MARK := "❌"

  /** What `page.extract_text()` did for one page. */
  datatype PageExtraction = PageText(text: string) | PageRaises(reason: string)

  /** A page adds a block when its extraction returned a non-empty text. */
  predicate Contributes(page: PageExtraction) {
    page.PageText? && page.text != ""
  }

  /** No page adds a block. */
  predicate NoPageContributes(pages: seq<PageExtraction>) {
    forall i :: 0 <= i < |pages| ==> !Contributes(pages[i])
  }

  /** The block of the page with 1-based number `number`. */
  function PageBlock(number: nat, text: string): string {
    "\n--- Page " + NatToString(number) + " ---\n" + text + "\n"
  }

  function Contribution(number: nat, page: PageExtraction): string {
    if Contributes(page) then PageBlock(number, page.text) else ""
  }

  /** The blocks of the contributing pages, in page order. */
  function Assembled(pages: seq<PageExtraction>): string {
    if pages == [] then ""
    else Assembled(pages[..|pages| - 1]) + Contribution(|pages|, pages[|pages| - 1])
  }

  /** The result: the assembled text when it is not blank, otherwise the
      no-text message; a file that cannot be read gives the processing-error
      message with the exception text. */
  function PdfText(reader: Attempt<seq<PageExtraction>>): string {
    match reader
    case Raised(reason) => PROCESSING_ERROR + reason
    case Ok(pages) =>
      var text := Assembled(pages);
      if Strip(text) != "" then text else NO_TEXT
  }

  /** The assembled text is empty exactly when no page contributes, and
      otherwise starts with the line break of the first block. */
  lemma {:induction false} AssembledShape(pages: seq<PageExtraction>)
    ensures Assembled(pages) == "" <==> NoPageContributes(pages)
    ensures Assembled(pages) != "" ==> Assembled(pages)[0] == '\n'
  {
    if pages != [] {
      var init := pages[..|pages| - 1];
      AssembledShape(init);
      assert forall i :: 0 <= i < |init| ==> init[i] == pages[i];
    }
  }

  /** A block header puts a dash second. */
  lemma PageBlockDash(number: nat, text: string)
    ensures |PageBlock(number, text)| > 1 && PageBlock(number, text)[1] == '-'
  {
    assert PageBlock(number, text) == "\n--- Page " + (NatToString(number) + " ---\n" + text + "\n");
  }

  /** A non-empty assembled text is not blank: the header of its first
      block puts a dash second. */
  lemma {:induction false} AssembledNotBlank(pages: seq<PageExtraction>)
    requires Assembled(pages) != ""
    ensures |Assembled(pages)| > 1 && Assembled(pages)[1] == '-'
  {
    var init := pages[..|pages| - 1];
    var page := pages[|pages| - 1];
    if Assembled(init) != "" {
      AssembledNotBlank(init);
    } else {
      PageBlockDash(|pages|, page.text);
    }
  }

  /** The no-text message is returned exactly when no page contributed. */
  lemma NoTextExactlyWhenNoPageContributes(pages: seq<PageExtraction>)
    ensures PdfText(Ok(pages)) == NO_TEXT <==> NoPageContributes(pages)
  {
    AssembledShape(pages);
    var text := Assembled(pages);
    if text != "" {
      AssembledNotBlank(pages);
      assert !IsBlank(text) by { assert !IsSpace(text[1]); }
      assert text[0] != NO_TEXT[0];
    }
  }

  /** Every result that begins with "❌" is one of the two failures, and
      both failures do. */
  lemma ErrorMarkExactlyOnFailure(reader: Attempt<seq<PageExtraction>>)
    ensures StartsWith(PdfText(reader), ERROR_MARK) <==> reader.Raised? || NoPageContributes(reader.value)
  {
    var result := PdfText(reader);
    if reader.Raised? {
      assert result[..1] == ERROR_MARK;
    } else {
      NoTextExactlyWhenNoPageContributes(reader.value);
      if result == NO_TEXT {
        assert result[..1] == ERROR_MARK;
      } else {
        AssembledShape(reader.value);
        assert result == Assembled(reader.value) && result[0] == '\n';
        assert result[..1] != ERROR_MARK by { assert result[..1][0] != ERROR_MARK[0]; }
      }
    }
  }

  /** The text of the first `k` pages is a prefix of the text of all of them. */
  lemma {:induction false} AssembledPrefix(pages: seq<PageExtraction>, k: nat)
    requires k <= |pages|
    ensures |Assembled(pages[..k])| <= |Assembled(pages)|
    ensures Assembled(pages)[..|Assembled(pages[..k])|] == Assembled(pages[..k])
    decreases |pages| - k
  {
    if k < |pages| {
      var init := pages[..|pages| - 1];
      assert init[..k] == pages[..k];
      AssembledPrefix(init, k);
    } else {
      assert pages[..k] == pages;
    }
  }

  /** A contributing page's block, and so its text verbatim, sits in the
      result right after the blocks of the pages before it. */
  lemma PageTextAppearsInOrder(pages: seq<PageExtraction>, i: nat)
    requires i < |pages| && Contributes(pages[i])
    ensures var offset := |Assembled(pages[..i])|;
      var block := PageBlock(i + 1, pages[i].text);
      offset + |block| <= |Assembled(pages)| && Assembled(pages)[offset..offset + |block|] == block
  {
    var before := Assembled(pages[..i]);
    var block := PageBlock(i + 1, pages[i].text);
    var upTo := Assembled(pages[..i + 1]);
    assert pages[..i + 1][..i] == pages[..i];
    assert upTo == before + block;
    AssembledPrefix(pages, i + 1);
    var all := Assembled(pages);
    assert all[..|upTo|] == upTo;
    assert all[|before|..|before| + |block|] == upTo[|before|..];
  }

  /** The extraction loop: a page whose extraction raises is skipped. */
  method ExtractTextFromPdf(reader: Attempt<seq<PageExtraction>>) returns (result: string)
    ensures result == PdfText(reader)
  {
    if reader.Raised? {
      return PROCESSING_ERROR + reader.reason;
    }
    var pages := reader.value;
    var text := "";
    for pageNum := 0 to |pages|
      invariant text == Assembled(pages[..pageNum])
    {
      assert pages[..pageNum + 1][..pageNum] == pages[..pageNum];
      ghost var before := text;
      match pages[pageNum]
      case PageRaises(_) =>
      case PageText(pageText) =>
        if pageText != "" {
          text := text + "\n--- Page " + NatToString(pageNum + 1) + " ---\n";
          text := text + pageText + "\n";
        }
      assert text == before + Contribution(pageNum + 1, pages[pageNum]);
    }
    assert pages[..|pages|] == pages;
    result := if Strip(text) != "" then text else NO_TEXT;
  }
}
