/**
 * The Bradesco investments extractor: a header read from the first ten
 * lines of every page, movement tables recognised by a `Data … Histórico`
 * cell, and, on the first page only, the product summary lines that follow
 * a `Produto … C.N.P.J` line. The adapter drops the summary rows, renames
 * the movement columns and standardises the table.
 */
module BradescoInv {
  import opened Wrappers
  import opened Text
  import opened Numbers
  import opened Dates
  import opened Regex
  import opened Frames
  import opened Pdf
  import opened Patterns
  import opened BaseExtractor
  import GenericRows
  import MappedTables
  import Scan

  // ---------------------------------------------------------------------
  // The header.

  /** `header_info`: every field is absent until a line sets it. */
  datatype InvHeader = InvHeader(
    cliente: Option<string>,
    periodoInicio: Option<string>,
    periodoFim: Option<string>,
    banco: Option<string>)

  const NoHeader: InvHeader := InvHeader(None, None, None, None)

  const BancoName: string := "BANCO BRADESCO S.A"

  /** A line naming the client: a municipality or a city hall. */
  predicate ClientLine(line: string)
  {
    Contains(Upper(line), "MUNICIPIO") || Contains(Upper(line), "PREFEITURA")
  }

  /** The dates written on a line, `re.findall(r'\d{2}/\d{2}/\d{4}', line)`. */
  function LineDates(line: string): seq<Match>
  {
    FindIter(FullDate, line)
  }

  /**
   * One raw header line: the tests form an `if`/`elif` chain, so a line sets
   * the client, or the period, or the bank, and never two of them.
   */
  function HeaderLine(h: InvHeader, line: string): (out: InvHeader)
    ensures out.cliente != h.cliente ==> ClientLine(line) && out.cliente == Some(Strip(line))
    ensures out.periodoInicio != h.periodoInicio || out.periodoFim != h.periodoFim ==>
      && !ClientLine(line) && Contains(line, "Período:") && |LineDates(line)| >= 2
      && out.periodoInicio == Some(Whole(line, LineDates(line)[0]))
      && out.periodoFim == Some(Whole(line, LineDates(line)[1]))
    ensures out.banco != h.banco ==>
      !ClientLine(line) && !Contains(line, "Período:") && Contains(line, "BANCO BRADESCO") && out.banco == Some(BancoName)
    ensures ClientLine(line) ==> out == h.(cliente := Some(Strip(line)))
  {
    if ClientLine(line) then h.(cliente := Some(Strip(line)))
    else if Contains(line, "Período:") then
      var ds := LineDates(line);
      if |ds| >= 2 then h.(periodoInicio := Some(Whole(line, ds[0])), periodoFim := Some(Whole(line, ds[1]))) else h
    else if Contains(line, "BANCO BRADESCO") then h.(banco := Some(BancoName))
    else h
  }

  /** `lines[:10]` */
  function HeaderLines(lines: seq<string>): (hs: seq<string>)
    ensures |hs| <= 10 && hs <= lines
  {
    if |lines| <= 10 then lines else lines[..10]
  }

  /** Every field that is set came from one of `lines` allowed to set it. */
  predicate Sourced(h: InvHeader, lines: seq<string>)
  {
    && (h.cliente.Some? ==> exists l | l in lines :: ClientLine(l) && h.cliente.value == Strip(l))
    && (h.periodoInicio.Some? ==> exists l | l in lines :: !ClientLine(l) && Contains(l, "Período:"))
    && (h.periodoFim.Some? ==> exists l | l in lines :: !ClientLine(l) && Contains(l, "Período:"))
    && (h.banco.Some? ==> h.banco.value == BancoName && exists l | l in lines :: Contains(l, "BANCO BRADESCO"))
  }

  /** A longer list of lines still sources every field. */
  lemma SourcedGrow(h: InvHeader, lines: seq<string>, line: string)
    requires Sourced(h, lines)
    ensures Sourced(h, lines + [line])
  {
    assert forall l | l in lines :: l in lines + [line];
  }

  /** Reading one more line keeps every field sourced. */
  lemma HeaderLineSourced(h: InvHeader, lines: seq<string>, line: string)
    requires Sourced(h, lines)
    ensures Sourced(HeaderLine(h, line), lines + [line])
  {
    SourcedGrow(h, lines, line);
    assert line in lines + [line];
    var out := HeaderLine(h, line);
    if ClientLine(line) {
      assert out.(cliente := h.cliente) == h;
    } else if Contains(line, "Período:") {
      assert out.(periodoInicio := h.periodoInicio, periodoFim := h.periodoFim) == h;
    } else if Contains(line, "BANCO BRADESCO") {
      assert out.(banco := h.banco) == h;
    } else {
      assert out == h;
    }
  }

  /** The header read from a list of lines has every set field sourced by one of those lines. */
  lemma {:induction false} ThreadSourced(ls: seq<string>)
    ensures Sourced(Scan.Thread(NoHeader, ls, HeaderLine), ls)
  {
    if |ls| > 0 {
      var front := ls[..|ls| - 1];
      ThreadSourced(front);
      HeaderLineSourced(Scan.Thread(NoHeader, front, HeaderLine), front, ls[|ls| - 1]);
      assert front + [ls[|ls| - 1]] == ls;
    }
  }

  /** The header loop over `lines[:10]`, continuing from what earlier pages set. */
  method ReadHeader(h0: InvHeader, lines: seq<string>) returns (h: InvHeader)
    ensures h == Scan.Thread(h0, HeaderLines(lines), HeaderLine)
  {
    var hs := HeaderLines(lines);
    h := h0;
    var i := 0;
    while i < |hs|
      invariant 0 <= i <= |hs|
      invariant h == Scan.Thread(h0, hs[..i], HeaderLine)
    {
      Scan.ThreadNext(h0, hs, i, HeaderLine);
      h := HeaderLine(h, hs[i]);
      i := i + 1;
    }
    assert hs[..i] == hs;
  }

  // ---------------------------------------------------------------------
  // Movement tables.

  /** A header row of a movement table: one non-empty cell holding both `Data` and `Histórico`, case as written. */
  predicate MovementHeader(row: TableRow)
  {
    exists j | 0 <= j < |row| :: Filled(row[j]) && Contains(row[j].value, "Data") && Contains(row[j].value, "Histórico")
  }

  /** The column an upper-cased header cell names, tested in this order. */
  function Classify(u: string): Option<string>
  {
    if Contains(u, "DATA") then Some("data")
    else if Contains(u, "HISTÓRICO") || Contains(u, "HISTORICO") then Some("historico")
    else if Contains(u, "VALOR") && Contains(u, "BRUTO") then Some("valor_bruto")
    else if Contains(u, "VALOR") && Contains(u, "LÍQUIDO") then Some("valor_liquido")
    else if Contains(u, "QUANTIDADE") then Some("quantidade")
    else if Contains(u, "COTA") && Contains(u, "VALOR") then Some("valor_cota")
    else None
  }

  /** One row of a movement table. */
  datatype Movement = Movement(
    date: CalendarDate,
    historico: string,
    bruto: int,
    liquido: int,
    quantidade: int,
    cota: int)

  predicate NumberChar(c: char)
  {
    IsDigit(c) || c == '.' || c == '-'
  }

  /** `float(re.sub(r'[^\d.-]', '', s.replace(',', '.')))`; `None` where `float` raises. */
  function CellNumber(s: string): (r: Option<int>)
  {
    Float(KeepIf(Swap(s, ',', '.'), NumberChar))
  }

  /**
   * A numeric column of a row: 0 when it is not mapped, when the cell is
   * empty, or when it does not convert; `None` where the index raises,
   * which drops the row.
   */
  function Number(row: TableRow, cols: GenericRows.ColMap, key: string): (r: Option<int>)
    ensures r.None? <==> key in cols && cols[key] >= |row|
    ensures key !in cols ==> r == Some(0)
    ensures key in cols && cols[key] < |row| ==>
      r == Some(if Filled(row[cols[key]]) then CellNumber(row[cols[key]].value).GetOr(0) else 0)
  {
    if key !in cols then Some(0)
    else if cols[key] >= |row| then None
    else if !Filled(row[cols[key]]) then Some(0)
    else Some(CellNumber(row[cols[key]].value).GetOr(0))
  }

  /** A data row: its date must be a full date that converts, and an index outside the row drops it. */
  function RowMovement(cols: GenericRows.ColMap, row: TableRow): (r: Option<Movement>)
    ensures r.Some? ==> |row| >= 3 && "data" in cols && cols["data"] < |row|
    ensures r.Some? ==>
      var ds := MappedTables.Field(row, cols, "data").value;
      ReMatch(FullDate, ds).Some? && Strptime(ds).Some? && Strptime(ds).value == r.value.date
    ensures r.Some? ==> MappedTables.Field(row, cols, "historico") == Some(r.value.historico)
    ensures r.Some? ==>
      && Number(row, cols, "valor_bruto") == Some(r.value.bruto)
      && Number(row, cols, "valor_liquido") == Some(r.value.liquido)
      && Number(row, cols, "quantidade") == Some(r.value.quantidade)
      && Number(row, cols, "valor_cota") == Some(r.value.cota)
  {
    if |row| < 3 || "data" !in cols || cols["data"] >= |row| then None
    else
      var ds := MappedTables.Field(row, cols, "data").value;
      if ReMatch(FullDate, ds).None? then None
      else
        var hist := MappedTables.Field(row, cols, "historico");
        var b, l := Number(row, cols, "valor_bruto"), Number(row, cols, "valor_liquido");
        var q, c := Number(row, cols, "quantidade"), Number(row, cols, "valor_cota");
        var d := Strptime(ds);
        if hist.None? || b.None? || l.None? || q.None? || c.None? || d.None? then None
        else Some(Movement(d.value, hist.value, b.value, l.value, q.value, c.value))
  }

  /** `tipo_operacao`: an application exactly when the gross amount is positive. */
  function Operation(bruto: int): string
  {
    if bruto > 0 then "aplicacao" else "resgate"
  }

  /** The data rows read under the header row `h`. */
  function UnderHeader(table: Table, h: nat): seq<Movement>
    requires h < |table|
  {
    Scan.Collect(GenericRows.MapColumns(table[h], Classify), table[h + 1..], RowMovement)
  }

  /**
   * The scan from row `i` on: there is no `break` after a header row, so
   * every header row starts its own pass over all the rows below it.
   */
  function ScansFrom(table: Table, i: nat): (ms: seq<Movement>)
    requires i <= |table|
    decreases |table| - i
  {
    if i == |table| then []
    else (if MovementHeader(table[i]) then UnderHeader(table, i) else []) + ScansFrom(table, i + 1)
  }

  /** The movements of one table; a table of fewer than two rows is skipped. */
  function TableMovements(table: Table): seq<Movement>
  {
    if |table| < 2 then [] else ScansFrom(table, 0)
  }

  /** Every movement comes from a data row below some header row, read under that header's columns. */
  lemma {:induction false} ScansFromRows(table: Table, i: nat)
    requires i <= |table|
    ensures forall m | m in ScansFrom(table, i) :: exists h, k | i <= h < k < |table| ::
      MovementHeader(table[h]) && RowMovement(GenericRows.MapColumns(table[h], Classify), table[k]) == Some(m)
    decreases |table| - i
  {
    if i < |table| {
      ScansFromRows(table, i + 1);
      if MovementHeader(table[i]) {
        var cols := GenericRows.MapColumns(table[i], Classify);
        forall m | m in UnderHeader(table, i)
          ensures exists k | i < k < |table| :: RowMovement(cols, table[k]) == Some(m)
        {
          var j :| 0 <= j < |table[i + 1..]| && RowMovement(cols, table[i + 1..][j]) == Some(m);
          assert table[i + 1..][j] == table[i + 1 + j];
        }
      }
    }
  }

  /** A table without a header row gives no movement, and one with a single header row gives that header's rows. */
  lemma {:induction false} ScansFromSingle(table: Table, i: nat, h: nat)
    requires i <= h < |table| && MovementHeader(table[h])
    requires forall j | i <= j < |table| && j != h :: !MovementHeader(table[j])
    ensures ScansFrom(table, i) == UnderHeader(table, h)
    decreases |table| - i
  {
    if i < h {
      ScansFromSkip(table, i);
      ScansFromSingle(table, i + 1, h);
    } else {
      ScansFromNone(table, i + 1);
    }
  }

  lemma {:induction false} ScansFromNone(table: Table, i: nat)
    requires i <= |table|
    requires forall j | i <= j < |table| :: !MovementHeader(table[j])
    ensures ScansFrom(table, i) == []
    decreases |table| - i
  {
    if i < |table| {
      ScansFromSkip(table, i);
      ScansFromNone(table, i + 1);
    }
  }

  /** A row that is not a header row starts no pass. */
  lemma ScansFromSkip(table: Table, i: nat)
    requires i < |table| && !MovementHeader(table[i])
    ensures ScansFrom(table, i) == ScansFrom(table, i + 1)
  {
  }

  /**
   * Two header rows make two passes; when they are the same row, the data
   * rows below the second one are read twice.
   */
  lemma RepeatedHeader(table: Table, h: nat, k: nat)
    requires h < k < |table| && MovementHeader(table[h]) && MovementHeader(table[k])
    requires forall j | 0 <= j < |table| && j != h && j != k :: !MovementHeader(table[j])
    ensures TableMovements(table) == UnderHeader(table, h) + UnderHeader(table, k)
    ensures table[h] == table[k] ==>
      TableMovements(table) ==
        Scan.Collect(GenericRows.MapColumns(table[k], Classify), table[h + 1..k + 1], RowMovement)
        + UnderHeader(table, k) + UnderHeader(table, k)
  {
    ScansFromHeaders(table, 0, h, k);
    if table[h] == table[k] {
      assert table[h + 1..] == table[h + 1..k + 1] + table[k + 1..];
      Scan.CollectAppend(GenericRows.MapColumns(table[k], Classify), table[h + 1..k + 1], table[k + 1..], RowMovement);
    }
  }

  lemma {:induction false} ScansFromHeaders(table: Table, i: nat, h: nat, k: nat)
    requires i <= h < k < |table| && MovementHeader(table[h]) && MovementHeader(table[k])
    requires forall j | i <= j < |table| && j != h && j != k :: !MovementHeader(table[j])
    ensures ScansFrom(table, i) == UnderHeader(table, h) + UnderHeader(table, k)
    decreases |table| - i
  {
    if i < h {
      ScansFromSkip(table, i);
      ScansFromHeaders(table, i + 1, h, k);
    } else {
      ScansFromSingle(table, i + 1, k);
    }
  }

  /** The data-row loop under one header row. */
  method ReadRows(cols: GenericRows.ColMap, rows: seq<TableRow>) returns (ms: seq<Movement>)
    ensures ms == Scan.Collect(cols, rows, RowMovement)
  {
    ms := Scan.CollectLoop(cols, rows, RowMovement);
  }

  /** The row loop of one table, starting a pass at every header row. */
  method ReadTable(table: Table) returns (ms: seq<Movement>)
    ensures ms == TableMovements(table)
  {
    ms := [];
    if |table| < 2 {
      return;
    }
    var i := 0;
    while i < |table|
      invariant 0 <= i <= |table|
      invariant ms + ScansFrom(table, i) == ScansFrom(table, 0)
    {
      var more: seq<Movement> := [];
      if MovementHeader(table[i]) {
        more := ReadRows(GenericRows.MapColumns(table[i], Classify), table[i + 1..]);
      }
      assert ScansFrom(table, i) == more + ScansFrom(table, i + 1);
      assert ms + ScansFrom(table, i) == (ms + more) + ScansFrom(table, i + 1);
      ms := ms + more;
      i := i + 1;
    }
    assert ms == ScansFrom(table, 0);
  }

  // ---------------------------------------------------------------------
  // Product summaries (first page only).

  /** `r'BRADESCO.*\d{2}\.\d{3}\.\d{3}/\d{4}-\d{2}'`: the bank's name, then a CNPJ. */
  const ProductRe: Re :=
    Cat(Bradesco, Cat(Star(Dot), Cat(Times(Digit, 2), Cat(Chr(Among(".")), Cat(Times(Digit, 3), Cat(Chr(Among(".")),
      Cat(Times(Digit, 3), Cat(Chr(Among("/")), Cat(Times(Digit, 4), Cat(Chr(Among("-")), Times(Digit, 2)))))))))))

  /** The word `BRADESCO`, one character at a time. */
  const Bradesco: Re :=
    Cat(Chr(Among("B")), Cat(Chr(Among("R")), Cat(Chr(Among("A")), Cat(Chr(Among("D")),
      Cat(Chr(Among("E")), Cat(Chr(Among("S")), Cat(Chr(Among("C")), Chr(Among("O")))))))))

  /** One product: its name, its opening and closing balances, and its share with '%' removed. */
  datatype Product = Product(produto: string, inicial: int, final: int, percentual: string)

  /** `re.search(r'BRADESCO.*\d{2}\.\d{3}\.\d{3}/\d{4}-\d{2}', line)` finds something. */
  predicate NamesProduct(line: string)
  {
    ReSearch(ProductRe, line).Some?
  }

  /** The line that announces the products. */
  predicate ProductHeader(line: string)
  {
    Contains(line, "Produto") && Contains(line, "C.N.P.J")
  }

  /**
   * A product line: it must name BRADESCO before a CNPJ and have three
   * words or more; the last three are the two balances, in the Brazilian
   * reading, and the share. A balance that does not convert skips the line.
   */
  function ProductLine(line: string): (r: Option<Product>)
    ensures r.Some? ==> NamesProduct(line) && |Words(line)| >= 3 && r == ProductWords(Words(line))
  {
    if !NamesProduct(line) then None
    else
      var ws := Words(line);
      if |ws| < 3 then None else ProductWords(ws)
  }

  function ProductWords(ws: seq<string>): (r: Option<Product>)
    requires |ws| >= 3
    ensures r.Some? ==> BrFloat(ws[|ws| - 3]) == Some(r.value.inicial) && BrFloat(ws[|ws| - 2]) == Some(r.value.final)
    ensures r.Some? ==> '%' !in r.value.percentual
  {
    var a, b := BrFloat(ws[|ws| - 3]), BrFloat(ws[|ws| - 2]);
    if a.None? || b.None? then None
    else Some(Product(Join(" ", ws[..|ws| - 3]), a.value, b.value, Drop(ws[|ws| - 1], '%')))
  }

  /** `min(i + 10, len(lines))` */
  function Stop(lines: seq<string>, i: nat): (e: nat)
    ensures e <= |lines| && e <= i + 10
  {
    if i + 10 < |lines| then i + 10 else |lines|
  }

  /** The line that ends a product list. */
  predicate TotalLine(line: string)
  {
    Contains(line, "Total")
  }

  /** `ProductLine` in the shape `Scan.Collect` takes. */
  function ReadProduct(u: (), line: string): (r: Option<Product>)
    ensures r == ProductLine(line)
  {
    ProductLine(line)
  }

  /** The lines after an announcing line `i`, up to `min(i + 10, len(lines))`. */
  function Window(lines: seq<string>, i: nat): (w: seq<string>)
    requires i < |lines|
    ensures |w| <= 9 && forall k | 0 <= k < |w| :: i + 1 + k < |lines| && w[k] == lines[i + 1 + k]
  {
    lines[i + 1..Stop(lines, i)]
  }

  /** The products listed under the announcing line `i`: the window is read up to its first `Total` line. */
  function Products(lines: seq<string>, i: nat): seq<Product>
    requires i < |lines|
  {
    Scan.Collect((), Scan.Until(Window(lines, i), TotalLine), ReadProduct)
  }

  /**
   * At most nine lines follow an announcing line, so at most nine products;
   * each comes from one of those lines that reads as a product, and no
   * line from the announcing line to it mentions `Total`.
   */
  lemma ProductsWithin(lines: seq<string>, i: nat)
    requires i < |lines|
    ensures |Products(lines, i)| <= 9
    ensures forall x | x in Products(lines, i) :: exists k | i < k < i + 10 && k < |lines| ::
      ProductLine(lines[k]) == Some(x) && forall l | i < l <= k :: !TotalLine(lines[l])
  {
    var w := Window(lines, i);
    var u := Scan.Until(w, TotalLine);
    assert |Products(lines, i)| <= |u| <= |w|;
    forall x | x in Products(lines, i)
      ensures exists k | i < k < i + 10 && k < |lines| ::
        ProductLine(lines[k]) == Some(x) && forall l | i < l <= k :: !TotalLine(lines[l])
    {
      ProductFrom(lines, i, x);
    }
  }

  /** A product listed under the announcing line `i` comes from one of the lines after it, with no `Total` before it. */
  lemma ProductFrom(lines: seq<string>, i: nat, x: Product)
    requires i < |lines| && x in Products(lines, i)
    ensures exists k | i < k < i + 10 && k < |lines| ::
      ProductLine(lines[k]) == Some(x) && forall l | i < l <= k :: !TotalLine(lines[l])
  {
    var u := Scan.Until(Window(lines, i), TotalLine);
    var m :| 0 <= m < |u| && ReadProduct((), u[m]) == Some(x);
    ProductAt(lines, i, m);
    assert ProductLine(lines[i + 1 + m]) == Some(x);
  }

  /** The `m`-th line read under the announcing line `i` is line `i + 1 + m`, with no `Total` before it. */
  lemma ProductAt(lines: seq<string>, i: nat, m: nat)
    requires i < |lines| && m < |Scan.Until(Window(lines, i), TotalLine)|
    ensures i + 1 + m < i + 10 && i + 1 + m < |lines|
    ensures Scan.Until(Window(lines, i), TotalLine)[m] == lines[i + 1 + m]
    ensures forall l | i < l <= i + 1 + m :: !TotalLine(lines[l])
  {
    var w := Window(lines, i);
    forall l | i < l <= i + 1 + m ensures !TotalLine(lines[l]) {
      assert lines[l] == w[l - i - 1];
    }
  }

  /** The outer loop over every line from `i`: each announcing line lists its own products. */
  function SummariesFrom(lines: seq<string>, i: nat): seq<Product>
    requires i <= |lines|
    decreases |lines| - i
  {
    if i == |lines| then []
    else (if ProductHeader(lines[i]) then Products(lines, i) else []) + SummariesFrom(lines, i + 1)
  }

  /** A page without an announcing line lists no product. */
  lemma {:induction false} NoProductHeader(lines: seq<string>, i: nat)
    requires i <= |lines| && forall k | i <= k < |lines| :: !ProductHeader(lines[k])
    ensures SummariesFrom(lines, i) == []
    decreases |lines| - i
  {
    if i < |lines| {
      NoProductHeader(lines, i + 1);
    }
  }

  /** The inner loop, with its `break` at a `Total` line. */
  method ScanProducts(lines: seq<string>, i: nat) returns (ss: seq<Product>)
    requires i < |lines|
    ensures ss == Products(lines, i)
  {
    var stop := Stop(lines, i);
    ss := Scan.CollectUntilLoop((), lines[i + 1..stop], TotalLine, ReadProduct);
  }

  lemma SummariesNext(lines: seq<string>, i: nat, ss: seq<Product>, more: seq<Product>)
    requires i < |lines| && more == if ProductHeader(lines[i]) then Products(lines, i) else []
    ensures ss + SummariesFrom(lines, i) == (ss + more) + SummariesFrom(lines, i + 1)
  {
  }

  /** The loop over the first page's lines. */
  method ScanSummaries(lines: seq<string>) returns (ss: seq<Product>)
    ensures ss == SummariesFrom(lines, 0)
  {
    ss := [];
    var i := 0;
    while i < |lines|
      invariant 0 <= i <= |lines|
      invariant ss + SummariesFrom(lines, i) == SummariesFrom(lines, 0)
    {
      var more: seq<Product> := [];
      if ProductHeader(lines[i]) {
        more := ScanProducts(lines, i);
      }
      SummariesNext(lines, i, ss, more);
      ss := ss + more;
      i := i + 1;
    }
  }

  // ---------------------------------------------------------------------
  // Pages and the document.

  /** A row of `all_data`: a movement or a product summary, with the header as it was on its page. */
  datatype Entry = Move(m: Movement, h: InvHeader) | Resumo(s: Product, h: InvHeader)

  /** What the page loop has built so far. */
  datatype Scanned = Scanned(header: InvHeader, entries: seq<Entry>)

  /** The movements of a page's tables, in order. */
  function TablesMovements(tables: seq<Table>): seq<Movement>
  {
    if |tables| == 0 then [] else TablesMovements(tables[..|tables| - 1]) + TableMovements(tables[|tables| - 1])
  }

  function Moves(h: InvHeader, ms: seq<Movement>): (es: seq<Entry>)
    ensures |es| == |ms| && forall k | 0 <= k < |ms| :: es[k] == Move(ms[k], h)
  {
    seq(|ms|, k requires 0 <= k < |ms| => Move(ms[k], h))
  }

  function Resumos(h: InvHeader, ss: seq<Product>): (es: seq<Entry>)
    ensures |es| == |ss| && forall k | 0 <= k < |ss| :: es[k] == Resumo(ss[k], h)
  {
    seq(|ss|, k requires 0 <= k < |ss| => Resumo(ss[k], h))
  }

  /** One page: the header lines, then the tables, then the products when it is the first page. */
  function PageStep(st: Scanned, p: Page, first: bool): Scanned
    requires p.text.Extracted?
  {
    var lines := PageLines(p.text);
    var h := Scan.Thread(st.header, HeaderLines(lines), HeaderLine);
    var sums := if first then Resumos(h, SummariesFrom(lines, 0)) else [];
    Scanned(h, st.entries + Moves(h, TablesMovements(p.tables)) + sums)
  }

  function PagesScan(pages: seq<Page>): Scanned
    requires AllExtracted(pages)
  {
    if |pages| == 0 then Scanned(NoHeader, [])
    else PageStep(PagesScan(pages[..|pages| - 1]), pages[|pages| - 1], |pages| == 1)
  }

  /** The function's result: an exception when the file does not open or a page has no text. */
  function Extract(doc: Document): (r: Result<Scanned>)
    ensures r.Ok? <==> doc.pages.Some? && AllExtracted(doc.pages.value)
  {
    if doc.pages.None? then Err("cannot open PDF")
    else if !AllExtracted(doc.pages.value) then Err("page without text")
    else Ok(PagesScan(doc.pages.value))
  }

  lemma PagesFront(pages: seq<Page>)
    requires |pages| > 0 && AllExtracted(pages)
    ensures AllExtracted(pages[..|pages| - 1])
  {
    assert forall k | 0 <= k < |pages| - 1 :: pages[..|pages| - 1][k] == pages[k];
  }

  /** Every product summary of the document was read from the first page's lines. */
  lemma {:induction false} SummariesFirstPage(pages: seq<Page>)
    requires AllExtracted(pages)
    ensures forall e | e in PagesScan(pages).entries && e.Resumo? ::
      |pages| > 0 && e.s in SummariesFrom(PageLines(pages[0].text), 0)
  {
    if |pages| > 0 {
      var front := pages[..|pages| - 1];
      PagesFront(pages);
      SummariesFirstPage(front);
      if |pages| > 1 {
        assert front[0] == pages[0];
      }
      var st := PagesScan(front);
      var lines := PageLines(pages[|pages| - 1].text);
      var h := Scan.Thread(st.header, HeaderLines(lines), HeaderLine);
      var ms := Moves(h, TablesMovements(pages[|pages| - 1].tables));
      var sums := if |pages| == 1 then Resumos(h, SummariesFrom(lines, 0)) else [];
      assert PagesScan(pages).entries == st.entries + ms + sums;
      assert forall e | e in ms :: e.Move?;
      forall e | e in PagesScan(pages).entries && e.Resumo?
        ensures e.s in SummariesFrom(PageLines(pages[0].text), 0)
      {
        if e in sums {
          var k :| 0 <= k < |sums| && sums[k] == e;
        }
      }
    }
  }

  /** A first page without a `Produto … C.N.P.J` line gives a document of movements only. */
  lemma {:induction false} NoProductsNoSummaries(pages: seq<Page>)
    requires AllExtracted(pages) && (|pages| == 0 || !ProductHeaderIn(pages[0]))
    ensures forall e | e in PagesScan(pages).entries :: e.Move?
  {
    if |pages| > 0 {
      var front := pages[..|pages| - 1];
      PagesFront(pages);
      if |front| > 0 {
        assert front[0] == pages[0];
      }
      NoProductsNoSummaries(front);
      if |pages| == 1 {
        var lines := PageLines(pages[0].text);
        assert forall k | 0 <= k < |lines| :: !ProductHeader(lines[k]) by {
          forall k | 0 <= k < |lines| ensures !ProductHeader(lines[k]) {
            assert lines[k] in lines;
          }
        }
        NoProductHeader(lines, 0);
      }
      var st := PagesScan(front);
      var lines := PageLines(pages[|pages| - 1].text);
      var h := Scan.Thread(st.header, HeaderLines(lines), HeaderLine);
      var ms := Moves(h, TablesMovements(pages[|pages| - 1].tables));
      assert forall e | e in ms :: e.Move?;
    }
  }

  /** Some line of the page announces products. */
  predicate ProductHeaderIn(p: Page)
  {
    p.text.Extracted? && exists l | l in PageLines(p.text) :: ProductHeader(l)
  }

  /** The table loop of one page. */
  method ReadTables(tables: seq<Table>) returns (ms: seq<Movement>)
    ensures ms == TablesMovements(tables)
  {
    ms := [];
    var t := 0;
    while t < |tables|
      invariant 0 <= t <= |tables|
      invariant ms == TablesMovements(tables[..t])
    {
      assert tables[..t + 1][..t] == tables[..t];
      var more := ReadTable(tables[t]);
      ms := ms + more;
      t := t + 1;
    }
    assert tables[..t] == tables;
  }

  /** The page loop: header lines, tables, then the products of the first page; a page without text raises. */
  method ExtractStatement(doc: Document) returns (r: Result<Scanned>)
    ensures r == Extract(doc)
  {
    if doc.pages.None? {
      return Err("cannot open PDF");
    }
    var pages := doc.pages.value;
    var st := Scanned(NoHeader, []);
    var n := 0;
    while n < |pages|
      invariant 0 <= n <= |pages|
      invariant AllExtracted(pages[..n])
      invariant st == PagesScan(pages[..n])
    {
      var p := pages[n];
      if !p.text.Extracted? {
        return Err("page without text");
      }
      PagesSnoc(pages, n);
      st := ReadPage(st, p, n == 0);
      n := n + 1;
    }
    assert pages[..n] == pages;
    return Ok(st);
  }

  /** One pass of the page loop's body. */
  method ReadPage(st: Scanned, p: Page, first: bool) returns (out: Scanned)
    requires p.text.Extracted?
    ensures out == PageStep(st, p, first)
  {
    var lines := PageLines(p.text);
    var h := ReadHeader(st.header, lines);
    var ms := ReadTables(p.tables);
    var entries := st.entries + Moves(h, ms);
    if first {
      var ss := ScanSummaries(lines);
      entries := entries + Resumos(h, ss);
    }
    out := Scanned(h, entries);
  }

  /** One more page: the scan of the longer prefix is one more step. */
  lemma PagesSnoc(pages: seq<Page>, n: nat)
    requires n < |pages| && AllExtracted(pages[..n]) && pages[n].text.Extracted?
    ensures AllExtracted(pages[..n + 1])
    ensures PagesScan(pages[..n + 1]) == PageStep(PagesScan(pages[..n]), pages[n], n == 0)
  {
    assert pages[..n + 1][..n] == pages[..n];
  }

  // ---------------------------------------------------------------------
  // The table the function returns.

  /** The keys of a movement's dictionary, in the order the source writes them. */
  const MoveKeys: seq<string> :=
    ["arquivo", "data", "historico", "valor_bruto", "valor_liquido", "quantidade_cotas", "valor_cota",
     "tipo_operacao", "cliente", "periodo_inicio", "periodo_fim", "banco"]

  /** The keys of a product summary's dictionary, in order. */
  const ResumoKeys: seq<string> :=
    ["arquivo", "produto", "saldo_inicial", "saldo_final", "percentual", "tipo", "cliente", "periodo_inicio",
     "periodo_fim", "banco"]

  /** The movement keys a summary lacks, in movement order. */
  const MoveOnly: seq<string> :=
    ["data", "historico", "valor_bruto", "valor_liquido", "quantidade_cotas", "valor_cota", "tipo_operacao"]

  /** The summary keys a movement lacks, in summary order. */
  const ResumoOnly: seq<string> := ["produto", "saldo_inicial", "saldo_final", "percentual", "tipo"]

  /** The `tipo` of a summary row, which the adapter filters on. */
  const ResumoTipo: string := "resumo_investimento"

  predicate HasMove(es: seq<Entry>)
  {
    exists i | 0 <= i < |es| :: es[i].Move?
  }

  predicate HasResumo(es: seq<Entry>)
  {
    exists i | 0 <= i < |es| :: es[i].Resumo?
  }

  /**
   * The columns of `pd.DataFrame(all_data)`: the keys of the first
   * dictionary, then the keys only the other kind has, once one of that
   * kind appears.
   */
  function Columns(es: seq<Entry>): (cs: seq<string>)
  {
    if |es| == 0 then []
    else if es[0].Move? then MoveKeys + (if HasResumo(es) then ResumoOnly else [])
    else ResumoKeys + (if HasMove(es) then MoveOnly else [])
  }

  /** What the columns hold: every key of each kind present, and nothing else. */
  lemma ColumnsHave(es: seq<Entry>)
    ensures Distinct(Columns(es))
    ensures HasMove(es) ==> forall k | k in MoveKeys :: k in Columns(es)
    ensures HasResumo(es) ==> forall k | k in ResumoKeys :: k in Columns(es)
    ensures "tipo" in Columns(es) <==> HasResumo(es)
    ensures "data_movimento" !in Columns(es) && "valor" !in Columns(es) && "conta" !in Columns(es)
  {
    if |es| > 0 {
      if es[0].Move? {
        assert HasMove(es);
        MoveFirstColumns(HasResumo(es));
      } else {
        assert HasResumo(es);
        ResumoFirstColumns(HasMove(es));
      }
    }
  }

  lemma MoveFirstColumns(resumo: bool)
    ensures var cs := MoveKeys + (if resumo then ResumoOnly else []);
      && Distinct(cs)
      && (forall k | k in MoveKeys :: k in cs)
      && (resumo ==> forall k | k in ResumoKeys :: k in cs)
      && ("tipo" in cs <==> resumo)
      && "data_movimento" !in cs && "valor" !in cs && "conta" !in cs
  {
    KeyFacts();
    if resumo {
      DistinctJoin(MoveKeys, ResumoOnly);
    } else {
      assert MoveKeys + [] == MoveKeys;
    }
  }

  lemma ResumoFirstColumns(move: bool)
    ensures var cs := ResumoKeys + (if move then MoveOnly else []);
      && Distinct(cs)
      && (forall k | k in ResumoKeys :: k in cs)
      && (move ==> forall k | k in MoveKeys :: k in cs)
      && "tipo" in cs
      && "data_movimento" !in cs && "valor" !in cs && "conta" !in cs
  {
    KeyFacts();
    if move {
      DistinctJoin(ResumoKeys, MoveOnly);
    } else {
      assert ResumoKeys + [] == ResumoKeys;
    }
  }

  /** The key lists: each without repeats, the two kinds sharing exactly the file and header keys. */
  lemma KeyFacts()
    ensures Distinct(MoveKeys) && Distinct(ResumoKeys) && Distinct(MoveOnly) && Distinct(ResumoOnly)
    ensures forall k | k in ResumoOnly :: k !in MoveKeys
    ensures forall k | k in MoveOnly :: k !in ResumoKeys
    ensures forall k | k in MoveKeys :: k in ResumoKeys || k in MoveOnly
    ensures forall k | k in ResumoKeys :: k in MoveKeys || k in ResumoOnly
    ensures "tipo" in ResumoKeys && "tipo" !in MoveKeys
    ensures forall k | k in MoveKeys + ResumoOnly :: k != "data_movimento" && k != "valor" && k != "conta"
    ensures forall k | k in ResumoKeys + MoveOnly :: k != "data_movimento" && k != "valor" && k != "conta"
  {
    MoveKeysDistinct();
    ResumoKeysDistinct();
    KeysApart();
    KeysShared();
    KeysUnrenamed();
  }

  lemma KeysApart()
    ensures forall k | k in ResumoOnly :: k !in MoveKeys
    ensures forall k | k in MoveOnly :: k !in ResumoKeys
  {
  }

  lemma KeysShared()
    ensures forall k | k in MoveKeys :: k in ResumoKeys || k in MoveOnly
    ensures forall k | k in ResumoKeys :: k in MoveKeys || k in ResumoOnly
  {
  }

  lemma KeysUnrenamed()
    ensures "tipo" in ResumoKeys && "tipo" !in MoveKeys
    ensures forall k | k in MoveKeys + ResumoOnly :: k != "data_movimento" && k != "valor" && k != "conta"
    ensures forall k | k in ResumoKeys + MoveOnly :: k != "data_movimento" && k != "valor" && k != "conta"
  {
    assert ResumoKeys[5] == "tipo";
  }

  lemma MoveKeysDistinct()
    ensures Distinct(MoveKeys) && Distinct(MoveOnly)
  {
  }

  lemma ResumoKeysDistinct()
    ensures Distinct(ResumoKeys) && Distinct(ResumoOnly)
  {
  }

  /** The header fields every dictionary ends with; a missing one reads as '', the bank as `BRADESCO`. */
  function HeaderCell(h: InvHeader, k: string): Value
  {
    if k == "cliente" then Str(h.cliente.GetOr(""))
    else if k == "periodo_inicio" then Str(h.periodoInicio.GetOr(""))
    else if k == "periodo_fim" then Str(h.periodoFim.GetOr(""))
    else if k == "banco" then Str(h.banco.GetOr("BRADESCO"))
    else Null
  }

  /** A movement's own cells; keys it does not have are missing. */
  function MoveCell(m: Movement, k: string): Value
  {
    if k == "data" then Str(Strftime(m.date))
    else if k == "historico" then Str(m.historico)
    else if k == "valor_bruto" then Num(m.bruto)
    else if k == "valor_liquido" then Num(m.liquido)
    else if k == "quantidade_cotas" then Num(m.quantidade)
    else if k == "valor_cota" then Num(m.cota)
    else if k == "tipo_operacao" then Str(Operation(m.bruto))
    else Null
  }

  /** A summary's own cells. */
  function ResumoCell(x: Product, k: string): Value
  {
    if k == "produto" then Str(x.produto)
    else if k == "saldo_inicial" then Num(x.inicial)
    else if k == "saldo_final" then Num(x.final)
    else if k == "percentual" then Str(x.percentual)
    else if k == "tipo" then Str(ResumoTipo)
    else Null
  }

  /** One cell of an entry's row: a key the entry's dictionary lacks reads as missing (NaN). */
  function Cell(arquivo: string, e: Entry, k: string): Value
  {
    if k == "arquivo" then Str(arquivo)
    else if k == "cliente" || k == "periodo_inicio" || k == "periodo_fim" || k == "banco" then HeaderCell(e.h, k)
    else match e
      case Move(m, _) => MoveCell(m, k)
      case Resumo(x, _) => ResumoCell(x, k)
  }

  function ToRow(arquivo: string, e: Entry, cs: seq<string>): (r: Row)
    ensures Shaped(r, cs)
  {
    map k | k in cs :: Cell(arquivo, e, k)
  }

  function RowsOf(arquivo: string, es: seq<Entry>, cs: seq<string>): (rs: seq<Row>)
    ensures |rs| == |es| && forall i | 0 <= i < |es| :: rs[i] == ToRow(arquivo, es[i], cs)
  {
    seq(|es|, i requires 0 <= i < |es| => ToRow(arquivo, es[i], cs))
  }

  /** `pd.DataFrame(all_data)`: one row per entry, in order. */
  function EntryFrame(arquivo: string, es: seq<Entry>): (f: Frame)
    ensures WellFormed(f) && |f.rows| == |es| && f.columns == Columns(es) && Renamable(f)
    ensures f.rows == RowsOf(arquivo, es, Columns(es))
  {
    ColumnsHave(es);
    Frame(Columns(es), RowsOf(arquivo, es, Columns(es)))
  }

  /** `return pd.DataFrame(all_data), header_info` */
  function ExtractFrame(doc: Document): (r: Result<(Frame, InvHeader)>)
    ensures r.Ok? <==> Extract(doc).Ok?
    ensures r.Ok? ==> r.value.0 == EntryFrame(doc.name, Extract(doc).value.entries) && r.value.1 == Extract(doc).value.header
  {
    match Extract(doc)
    case Err(msg) => Err(msg)
    case Ok(st) => Ok((EntryFrame(doc.name, st.entries), st.header))
  }

  /** A movement's row: its own cells where the columns have them, and no `tipo`. */
  lemma MoveRow(arquivo: string, m: Movement, h: InvHeader, cs: seq<string>)
    requires forall k | k in MoveKeys :: k in cs
    ensures var r := ToRow(arquivo, Move(m, h), cs);
      && Get(r, "arquivo") == Str(arquivo)
      && Get(r, "data") == Str(Strftime(m.date))
      && Get(r, "historico") == Str(m.historico)
      && Get(r, "valor_liquido") == Num(m.liquido)
      && Get(r, "cliente") == Str(h.cliente.GetOr(""))
      && Get(r, "tipo") == Null
  {
    assert MoveKeys[0] == "arquivo" && MoveKeys[1] == "data" && MoveKeys[2] == "historico";
    assert MoveKeys[4] == "valor_liquido" && MoveKeys[8] == "cliente";
    MoveCells(arquivo, m, h);
  }

  /** The cells of a movement, whatever the columns. */
  lemma MoveCells(arquivo: string, m: Movement, h: InvHeader)
    ensures var e := Move(m, h);
      && Cell(arquivo, e, "arquivo") == Str(arquivo)
      && Cell(arquivo, e, "data") == Str(Strftime(m.date))
      && Cell(arquivo, e, "historico") == Str(m.historico)
      && Cell(arquivo, e, "valor_liquido") == Num(m.liquido)
      && Cell(arquivo, e, "cliente") == Str(h.cliente.GetOr(""))
      && Cell(arquivo, e, "tipo") == Null
  {
  }

  /** A summary's row, once the columns include `tipo`, is marked as one. */
  lemma ResumoRow(arquivo: string, x: Product, h: InvHeader, cs: seq<string>)
    requires "tipo" in cs
    ensures Get(ToRow(arquivo, Resumo(x, h), cs), "tipo") == Str(ResumoTipo)
  {
  }

  // ---------------------------------------------------------------------
  // The adapter.

  const AdapterBank: string := "BRADESCO INVESTIMENTOS"

  /** The row test `df.get('tipo', '') != 'resumo_investimento'`, where a missing `tipo` (NaN) differs. */
  predicate KeepRow(r: Row)
  {
    Get(r, "tipo") != Str(ResumoTipo)
  }

  /**
   * The filter as written. Without a `tipo` column `df.get` returns the
   * default '', the comparison is the single value `True`, and `df[True]`
   * looks up a column named `True`, which raises `KeyError`.
   */
  function DropSummariesAsWritten(f: Frame): (r: Result<Frame>)
    requires WellFormed(f)
    ensures r.Err? <==> "tipo" !in f.columns
    ensures r.Ok? ==> r.value == Filter(f, KeepRow)
  {
    if "tipo" in f.columns then Ok(Filter(f, KeepRow)) else Err("KeyError: True")
  }

  /** The columns the renaming must not collide with. */
  predicate Renamable(f: Frame)
  {
    "data_movimento" !in f.columns && "valor" !in f.columns && "conta" !in f.columns
  }

  /** Where a column of the renamed table comes from; the renamed-away columns come from nowhere. */
  function RenamedFrom(c: string): Option<string>
  {
    if c == "data_movimento" then Some("data")
    else if c == "valor" then Some("valor_liquido")
    else if c == "conta" then Some("cliente")
    else if c == "data" || c == "valor_liquido" || c == "cliente" then None
    else Some(c)
  }

  /** `df.rename(columns={'data': 'data_movimento', 'historico': 'historico', 'valor_liquido': 'valor', 'cliente': 'conta'})` */
  function Renamed(f: Frame): (g: Frame)
    requires WellFormed(f) && Renamable(f)
    ensures WellFormed(g) && |g.rows| == |f.rows|
    ensures forall i, c | 0 <= i < |f.rows| ::
      Get(g.rows[i], c) == match RenamedFrom(c) case None => Null case Some(src) => Get(f.rows[i], src)
  {
    var f1 := Rename(f, "data", "data_movimento");
    ReplaceAbsent(f.columns, "data", "data_movimento", "valor");
    ReplaceAbsent(f.columns, "data", "data_movimento", "conta");
    var f2 := Rename(f1, "historico", "historico");
    ReplaceAbsent(f1.columns, "historico", "historico", "valor");
    ReplaceAbsent(f1.columns, "historico", "historico", "conta");
    var f3 := Rename(f2, "valor_liquido", "valor");
    ReplaceAbsent(f2.columns, "valor_liquido", "valor", "conta");
    var g := Rename(f3, "cliente", "conta");
    forall i, c | 0 <= i < |f.rows|
      ensures Get(g.rows[i], c) == match RenamedFrom(c) case None => Null case Some(src) => Get(f.rows[i], src)
    {
      RenameGet(f, "data", "data_movimento", i, c);
      RenameGet(f, "data", "data_movimento", i, "valor_liquido");
      RenameGet(f, "data", "data_movimento", i, "cliente");
      RenameGet(f1, "historico", "historico", i, c);
      RenameGet(f1, "historico", "historico", i, "valor_liquido");
      RenameGet(f1, "historico", "historico", i, "cliente");
      RenameGet(f2, "valor_liquido", "valor", i, c);
      RenameGet(f2, "valor_liquido", "valor", i, "cliente");
      RenameGet(f3, "cliente", "conta", i, c);
    }
    g
  }

  /** Renaming `a` to `b` brings in no name other than `b`. */
  lemma ReplaceAbsent(cs: seq<string>, a: string, b: string, c: string)
    requires c != b && c !in cs
    ensures c !in Replace1(cs, a, b)
  {
  }

  /** Renaming, `df['banco'] = 'BRADESCO INVESTIMENTOS'`, and `standardize_output`. */
  function Finish(f: Frame): (g: Frame)
    requires WellFormed(f) && Renamable(f)
    ensures WellFormed(g) && |g.rows| == |f.rows|
    ensures forall c | c in StandardColumns :: c in g.columns
    ensures forall i, c | 0 <= i < |f.rows| && c in StandardColumns :: Get(g.rows[i], c) == AdaptedCell(f.rows[i], c)
  {
    FinishCells(f);
    Standardize(SetColumn(Renamed(f), "banco", Str(AdapterBank)))
  }

  lemma FinishCells(f: Frame)
    requires WellFormed(f) && Renamable(f)
    ensures var g := Standardize(SetColumn(Renamed(f), "banco", Str(AdapterBank)));
      && (forall c | c in StandardColumns :: c in g.columns)
      && forall i, c | 0 <= i < |f.rows| && c in StandardColumns :: Get(g.rows[i], c) == AdaptedCell(f.rows[i], c)
  {
    var b := SetColumn(Renamed(f), "banco", Str(AdapterBank));
    LayoutHasStandard(b.columns);
    forall i, c | 0 <= i < |f.rows| && c in StandardColumns
      ensures Get(Standardize(b).rows[i], c) == AdaptedCell(f.rows[i], c)
    {
      FinishCell(f, i, c);
    }
  }

  lemma FinishCell(f: Frame, i: nat, c: string)
    requires WellFormed(f) && Renamable(f) && i < |f.rows| && c in StandardColumns
    ensures Get(Standardize(SetColumn(Renamed(f), "banco", Str(AdapterBank))).rows[i], c) == AdaptedCell(f.rows[i], c)
  {
    var r := Renamed(f);
    var b := SetColumn(r, "banco", Str(AdapterBank));
    StandardColumnCell(b, i, c);
    assert Get(b.rows[i], c) == if c == "banco" then Str(AdapterBank) else Get(r.rows[i], c);
  }

  /**
   * The cell the adapter writes in a standard column for a row of the
   * extractor's table: the renamed cell, or the bank name, coerced.
   */
  function AdaptedCell(r: Row, c: string): Value
  {
    Coerced(c, if c == "banco" then Str(AdapterBank) else
      match RenamedFrom(c) case None => Null case Some(src) => Get(r, src))
  }

  /**
   * `BradescoInvAdapter.extract_statement` on the extractor's table, as
   * intended: an empty table as it is; otherwise the summary rows go, and
   * a table with no summary at all keeps every row.
   */
  function AdaptFrameIntended(f: Frame): (g: Frame)
    requires WellFormed(f) && Renamable(f)
    ensures WellFormed(g)
    ensures IsEmpty(f) ==> g == f
  {
    if IsEmpty(f) then f else Finish(Filter(f, KeepRow))
  }

  /**
   * The same, with the filter as written: a non-empty table without a
   * `tipo` column raises, any other gives the intended adapted table.
   */
  function AdaptFrame(f: Frame): (r: Result<Frame>)
    requires WellFormed(f) && Renamable(f)
    ensures r.Err? <==> !IsEmpty(f) && "tipo" !in f.columns
    ensures r.Ok? ==> r.value == AdaptFrameIntended(f)
  {
    if IsEmpty(f) then Ok(f)
    else
      match DropSummariesAsWritten(f)
      case Err(msg) => Err(msg)
      case Ok(g) => Ok(Finish(g))
  }

  /**
   * `extract_statement`: the adapted table and the header as the extractor
   * returned it. It fails when the extractor does, and when the extractor
   * found rows but no summary among them, so that the table has no `tipo`.
   */
  function AdapterExtract(doc: Document): (r: Result<(Frame, InvHeader)>)
    ensures r.Ok? <==> Extract(doc).Ok? && (Extract(doc).value.entries == [] || HasResumo(Extract(doc).value.entries))
    ensures r.Ok? ==> r.value.1 == Extract(doc).value.header
  {
    match ExtractFrame(doc)
    case Err(msg) => Err(msg)
    case Ok((f, h)) =>
      ColumnsHave(Extract(doc).value.entries);
      match AdaptFrame(f)
      case Err(msg) => Err(msg)
      case Ok(g) => Ok((g, h))
  }

  /** `extract_statement` with the filter as intended: it fails exactly when the extractor does. */
  function AdapterExtractIntended(doc: Document): (r: Result<(Frame, InvHeader)>)
    ensures r.Ok? <==> Extract(doc).Ok?
    ensures r.Ok? ==> r.value.1 == Extract(doc).value.header
  {
    match ExtractFrame(doc)
    case Err(msg) => Err(msg)
    case Ok((f, h)) =>
      ColumnsHave(Extract(doc).value.entries);
      Ok((AdaptFrameIntended(f), h))
  }

  /**
   * On a document the extractor reads, the table either adapter returns
   * is the extractor's table with the intended filter applied.
   */
  lemma AdapterExtractFrame(doc: Document)
    requires Extract(doc).Ok?
    ensures var g := AdaptFrameIntended(EntryFrame(doc.name, Extract(doc).value.entries));
      && (AdapterExtract(doc).Ok? ==> AdapterExtract(doc).value.0 == g)
      && AdapterExtractIntended(doc).value.0 == g
  {
  }

  /**
   * The adapter's steps in order: extract, then for a non-empty table
   * filter (raising without `tipo`), rename, set the bank and standardise.
   */
  method AdapterExtractStatement(doc: Document) returns (r: Result<(Frame, InvHeader)>)
    ensures r == AdapterExtract(doc)
  {
    var st := ExtractStatement(doc);
    if st.Err? {
      return Err(st.msg);
    }
    var f := EntryFrame(doc.name, st.value.entries);
    if !IsEmpty(f) {
      var kept := DropSummariesAsWritten(f);
      if kept.Err? {
        return Err(kept.msg);
      }
      var renamed := Renamed(kept.value);
      var banked := SetColumn(renamed, "banco", Str(AdapterBank));
      f := StandardizeOutput(banked);
    }
    r := Ok((f, st.value.header));
  }

  // ---------------------------------------------------------------------
  // What the adapter's table holds.

  /** The movements among the entries, in order: the rows the adapter keeps. */
  function MovesOf(es: seq<Entry>): (ms: seq<Entry>)
    ensures |ms| <= |es|
    ensures forall k | 0 <= k < |ms| :: ms[k].Move? && ms[k] in es
    ensures forall e | e in es && e.Move? :: e in ms
  {
    if |es| == 0 then []
    else MovesOf(es[..|es| - 1]) + (if es[|es| - 1].Move? then [es[|es| - 1]] else [])
  }

  /** The row test on an entry's row: a summary goes once the columns have `tipo`, a movement stays. */
  lemma KeepEntry(arquivo: string, e: Entry, cs: seq<string>)
    requires e.Resumo? ==> "tipo" in cs
    ensures KeepRow(ToRow(arquivo, e, cs)) <==> e.Move?
  {
  }

  /** Dropping the summary rows of the extractor's rows leaves the rows of its movements. */
  lemma {:induction false} FilterMoves(arquivo: string, es: seq<Entry>, cs: seq<string>)
    requires forall e | e in es && e.Resumo? :: "tipo" in cs
    ensures FilterRows(RowsOf(arquivo, es, cs), KeepRow) == RowsOf(arquivo, MovesOf(es), cs)
  {
    if |es| > 0 {
      var n := |es| - 1;
      var rs := RowsOf(arquivo, es, cs);
      assert rs[..n] == RowsOf(arquivo, es[..n], cs);
      assert es[n] in es;
      FilterMoves(arquivo, es[..n], cs);
      KeepEntry(arquivo, es[n], cs);
      if es[n].Move? {
        assert MovesOf(es) == MovesOf(es[..n]) + [es[n]];
        assert RowsOf(arquivo, MovesOf(es), cs) == RowsOf(arquivo, MovesOf(es[..n]), cs) + [ToRow(arquivo, es[n], cs)];
      } else {
        assert MovesOf(es) == MovesOf(es[..n]);
      }
    }
  }

  /**
   * The adapted table of a non-empty extraction: one row per movement, in
   * order; each standard column holds the renamed movement cell, coerced,
   * and `banco` the adapter's bank name.
   */
  lemma IntendedRows(arquivo: string, es: seq<Entry>)
    requires |es| > 0
    ensures var g := AdaptFrameIntended(EntryFrame(arquivo, es)); var ms := MovesOf(es);
      && |g.rows| == |ms|
      && (forall c | c in StandardColumns :: c in g.columns)
      && forall i, c | 0 <= i < |ms| && c in StandardColumns ::
        Get(g.rows[i], c) == AdaptedCell(ToRow(arquivo, ms[i], Columns(es)), c)
  {
    ColumnsHave(es);
    var cs := Columns(es);
    var f := EntryFrame(arquivo, es);
    assert !IsEmpty(f);
    var kept := Filter(f, KeepRow);
    assert kept.rows == FilterRows(f.rows, KeepRow);
    FilterMoves(arquivo, es, cs);
    assert kept.rows == RowsOf(arquivo, MovesOf(es), cs);
  }

  /**
   * The same with the filter as written: a non-empty extraction is adapted
   * exactly when it holds a summary, and then into that table.
   */
  lemma AdaptedRows(arquivo: string, es: seq<Entry>)
    requires |es| > 0
    ensures AdaptFrame(EntryFrame(arquivo, es)).Ok? <==> HasResumo(es)
    ensures var r := AdaptFrame(EntryFrame(arquivo, es)); var ms := MovesOf(es);
      r.Ok? ==>
        && |r.value.rows| == |ms|
        && (forall c | c in StandardColumns :: c in r.value.columns)
        && forall i, c | 0 <= i < |ms| && c in StandardColumns ::
          Get(r.value.rows[i], c) == AdaptedCell(ToRow(arquivo, ms[i], Columns(es)), c)
  {
    ColumnsHave(es);
    assert !IsEmpty(EntryFrame(arquivo, es));
    IntendedRows(arquivo, es);
  }

  /** What the adapter writes for a movement of the file `arquivo`. */
  predicate AdaptedMove(r: Row, arquivo: string, e: Entry)
    requires e.Move?
  {
    && Get(r, "arquivo") == Str(arquivo)
    && Get(r, "data_movimento") == Day(e.m.date)
    && Get(r, "historico") == Str(e.m.historico)
    && Get(r, "valor") == Num(e.m.liquido)
    && Get(r, "conta") == Str(e.h.cliente.GetOr(""))
    && Get(r, "banco") == Str(AdapterBank)
    && Get(r, "tipo") == Null
  }

  /** A movement's adapted cells, once the columns hold every movement key. */
  lemma AdaptedMoveCells(arquivo: string, m: Movement, h: InvHeader, cs: seq<string>)
    requires forall k | k in MoveKeys :: k in cs
    ensures var e := Move(m, h);
      && AdaptedCell(ToRow(arquivo, e, cs), "arquivo") == Str(arquivo)
      && AdaptedCell(ToRow(arquivo, e, cs), "data_movimento") == Day(m.date)
      && AdaptedCell(ToRow(arquivo, e, cs), "historico") == Str(m.historico)
      && AdaptedCell(ToRow(arquivo, e, cs), "valor") == Num(m.liquido)
      && AdaptedCell(ToRow(arquivo, e, cs), "conta") == Str(h.cliente.GetOr(""))
      && AdaptedCell(ToRow(arquivo, e, cs), "banco") == Str(AdapterBank)
      && AdaptedCell(ToRow(arquivo, e, cs), "tipo") == Null
  {
    AdaptedMoveValues(arquivo, m, h, cs);
    AdaptedMoveTexts(arquivo, m, h, cs);
  }

  lemma AdaptedMoveValues(arquivo: string, m: Movement, h: InvHeader, cs: seq<string>)
    requires forall k | k in MoveKeys :: k in cs
    ensures var e := Move(m, h);
      && AdaptedCell(ToRow(arquivo, e, cs), "data_movimento") == Day(m.date)
      && AdaptedCell(ToRow(arquivo, e, cs), "valor") == Num(m.liquido)
  {
    MoveRow(arquivo, m, h, cs);
    StrptimeStrftime(m.date);
  }

  lemma AdaptedMoveTexts(arquivo: string, m: Movement, h: InvHeader, cs: seq<string>)
    requires forall k | k in MoveKeys :: k in cs
    ensures var e := Move(m, h);
      && AdaptedCell(ToRow(arquivo, e, cs), "arquivo") == Str(arquivo)
      && AdaptedCell(ToRow(arquivo, e, cs), "historico") == Str(m.historico)
      && AdaptedCell(ToRow(arquivo, e, cs), "conta") == Str(h.cliente.GetOr(""))
      && AdaptedCell(ToRow(arquivo, e, cs), "banco") == Str(AdapterBank)
      && AdaptedCell(ToRow(arquivo, e, cs), "tipo") == Null
  {
    MoveRow(arquivo, m, h, cs);
  }

  /** The row of the `i`-th movement in the intended adapted table. */
  lemma MoveAdapted(arquivo: string, es: seq<Entry>, i: nat)
    requires |es| > 0 && i < |MovesOf(es)|
    ensures var g := AdaptFrameIntended(EntryFrame(arquivo, es));
      |g.rows| == |MovesOf(es)| && AdaptedMove(g.rows[i], arquivo, MovesOf(es)[i])
  {
    var g := AdaptFrameIntended(EntryFrame(arquivo, es));
    var e := MovesOf(es)[i];
    var cs := Columns(es);
    IntendedRows(arquivo, es);
    assert HasMove(es) by {
      var k :| 0 <= k < |es| && es[k] == e;
    }
    ColumnsHave(es);
    AdaptedMoveRow(g.rows[i], arquivo, e, cs);
  }

  /** A row holding, in every standard column, the adapted cell of a movement's row is that movement adapted. */
  lemma AdaptedMoveRow(r: Row, arquivo: string, e: Entry, cs: seq<string>)
    requires e.Move? && forall k | k in MoveKeys :: k in cs
    requires forall c | c in StandardColumns :: Get(r, c) == AdaptedCell(ToRow(arquivo, e, cs), c)
    ensures AdaptedMove(r, arquivo, e)
  {
    StandardHas();
    StandardMore();
    AdaptedMoveCells(arquivo, e.m, e.h, cs);
  }

  lemma StandardMore()
    ensures "historico" in StandardColumns && "conta" in StandardColumns && "banco" in StandardColumns
  {
    assert StandardColumns[2] == "historico" && StandardColumns[7] == "conta" && StandardColumns[9] == "banco";
  }

  /**
   * `extract_statement` on a statement with at least one row: it returns a
   * table exactly when a summary is among the rows, and that table has one
   * row per movement, in order, with its date parsed, its net value as
   * `valor`, the client as `conta`, and the adapter's bank name; no summary
   * row is left.
   */
  lemma AdapterRows(doc: Document)
    requires Extract(doc).Ok? && |Extract(doc).value.entries| > 0
    ensures AdapterExtract(doc).Ok? <==> HasResumo(Extract(doc).value.entries)
    ensures AdapterExtract(doc).Ok? ==>
      var g := AdapterExtract(doc).value.0; var ms := MovesOf(Extract(doc).value.entries);
      |g.rows| == |ms| && forall i | 0 <= i < |ms| :: AdaptedMove(g.rows[i], doc.name, ms[i])
  {
    AdapterExtractFrame(doc);
    AdapterRowsIntended(doc);
  }

  /** The same with the filter as intended: the table is returned whether or not a summary is present. */
  lemma AdapterRowsIntended(doc: Document)
    requires Extract(doc).Ok? && |Extract(doc).value.entries| > 0
    ensures AdapterExtractIntended(doc).Ok?
    ensures var g := AdapterExtractIntended(doc).value.0; var ms := MovesOf(Extract(doc).value.entries);
      |g.rows| == |ms| && forall i | 0 <= i < |ms| :: AdaptedMove(g.rows[i], doc.name, ms[i])
  {
    var es := Extract(doc).value.entries;
    AdapterExtractFrame(doc);
    IntendedRows(doc.name, es);
    forall i | 0 <= i < |MovesOf(es)| {
      MoveAdapted(doc.name, es, i);
    }
  }

  /**
   * The adapter as written fails on a statement whose first page lists no
   * product: without a summary row the table has no `tipo` column and the
   * filter raises `KeyError`, where the intended adapter returns the
   * movements.
   */
  lemma KeyErrorWithoutProducts(doc: Document)
    requires Extract(doc).Ok? && |Extract(doc).value.entries| > 0
    requires !ProductHeaderIn(doc.pages.value[0])
    ensures AdapterExtract(doc).Err?
    ensures AdapterExtractIntended(doc).Ok?
  {
    var es := Extract(doc).value.entries;
    assert es == PagesScan(doc.pages.value).entries;
    NoProductsNoSummaries(doc.pages.value);
    ColumnsHave(es);
    assert !HasResumo(es) by {
      forall k | 0 <= k < |es| ensures es[k].Move? {
        assert es[k] in es;
      }
    }
    var f := EntryFrame(doc.name, es);
    assert !IsEmpty(f);
  }

  /** Once a summary row exists, the adapter as written and the intended one agree. */
  lemma AgreeWithSummaries(doc: Document)
    requires Extract(doc).Ok? && HasResumo(Extract(doc).value.entries)
    ensures AdapterExtract(doc) == AdapterExtractIntended(doc)
  {
    ColumnsHave(Extract(doc).value.entries);
  }

  /**
   * An amount written with a thousands point, as in `1.234,56`, does not
   * convert: the comma becomes a second point, `float` raises, and the
   * cell reads as 0. Any two separators in a cell have this effect.
   */
  lemma ThousandsDropped(s: string, i: nat, j: nat)
    requires i < j < |s| && (s[i] == '.' || s[i] == ',') && (s[j] == '.' || s[j] == ',')
    ensures CellNumber(s).None?
  {
    var t := Swap(s, ',', '.');
    var p, q := KeepIfTwo(t, i, j, NumberChar);
    var u := KeepIf(t, NumberChar);
    assert forall k | 0 <= k < |u| :: NumberChar(u[k]) by {
      forall k | 0 <= k < |u| ensures NumberChar(u[k]) {
        assert u[k] in u;
      }
    }
    TwoPointsFloat(u, p, q);
  }
}
