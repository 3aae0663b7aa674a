/**
 * What the PDF libraries hand to the extractors: per page, the extracted
 * text (or nothing, or an exception) and the extracted tables, whose cells
 * are optional strings. Opening a file can fail as a whole.
 */
module Pdf {
  import opened Wrappers
  import opened Text

  /** The outcome of `page.extract_text()`. */
  datatype PageText = NoText | Extracted(s: string) | Raises

  type Cell = Option<string>

  type TableRow = seq<Cell>

  type Table = seq<TableRow>

  datatype Page = Page(text: PageText, tables: seq<Table>)

  /** A PDF file: its name (`Path(pdf_path).name`) and its pages, `None` when opening raises. */
  datatype Document = Document(name: string, pages: Option<seq<Page>>)

  /** `if text:` -- a text that is neither `None` nor empty. */
  predicate HasText(t: PageText)
  {
    t.Extracted? && |t.s| > 0
  }

  /** `text.split('\n')` of a page whose text is present. */
  function PageLines(t: PageText): (ls: seq<string>)
    requires t.Extracted?
    ensures |ls| >= 1
  {
    Split(t.s, '\n')
  }

  /** `str(cell or '')` */
  function CellText(c: Cell): (s: string)
    ensures c.None? ==> s == ""
  {
    match c
    case None => ""
    case Some(v) => v
  }

  /** `str(cell)`: a missing cell prints as "None". */
  function CellStr(c: Cell): string
  {
    match c
    case None => "None"
    case Some(v) => v
  }

  /** `if cell:` -- a cell that is neither `None` nor empty. */
  predicate Filled(c: Cell)
  {
    c.Some? && |c.value| > 0
  }

  /** `row[j]`, which raises `IndexError` outside the row. */
  function At(row: TableRow, j: nat): Option<Cell>
  {
    if j < |row| then Some(row[j]) else None
  }

  /** Every page has a text: no `extract_text()` returned `None` or raised. */
  predicate AllExtracted(pages: seq<Page>)
  {
    forall i | 0 <= i < |pages| :: pages[i].text.Extracted?
  }

  /** A loop over pages that has seen text on every page so far, and on the next one. */
  lemma ExtractedSnoc(pages: seq<Page>, i: nat)
    requires i < |pages| && AllExtracted(pages[..i]) && pages[i].text.Extracted?
    ensures AllExtracted(pages[..i + 1])
  {
    assert forall j | 0 <= j < i :: pages[..i + 1][j] == pages[..i][j];
  }
}
