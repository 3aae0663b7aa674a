/**
 * `ScriptSantanderPypdf2`: `extract_santander_pypdf2` of the PyPDF2
 * Santander script, and the per-file log its `main` builds. The function
 * counts every dated line it reads, takes the first amount after the date
 * as `Valor` and the second, if any, as `Saldo`, and raises out of itself;
 * `main` catches the exception per file and logs it.
 */
module ScriptSantanderPypdf2 {
  import opened Wrappers
  import opened Text
  import opened Numbers
  import opened Regex
  import opened Patterns
  import opened Pdf
  import opened Scripts
  import Scan
  import ScriptSantander

  /** `^(\d{2}/\d{2}/\d{4})\s+(.+)` */
  const DatedRe: Re := Cats([Bol, Grp(1, FullDate), Spaces, Grp(2, Rep(Chr(Dot), 1, Inf, true))])

  /** `\d{1,3}(?:\.\d{3})*,\d{1,2}`, as the only group of `findall`. */
  const AmountParts := [Rep(Chr(Digit), 1, AtMost(3), true), Rep(Cat(Lit("."), Times(Digit, 3)), 0, Inf, true), Lit(","), Rep(Chr(Digit), 1, AtMost(2), true)]
  const AmountRe: Re := Grp(1, Cats(AmountParts))

  /** `s[:k]` with Python's reading of a negative `k` (counted from the end). */
  function Prefix(s: string, k: int): (r: string)
    ensures 0 <= k <= |s| ==> r == s[..k]
    ensures |r| <= |s|
  {
    if k >= 0 then s[..if k <= |s| then k else |s|]
    else s[..if |s| + k >= 0 then |s| + k else 0]
  }

  /** `'D' if '-' in descricao else 'C'`, overridden to 'C' for card payments. */
  function Tipo(descricao: string): (t: string)
    ensures t == "D" <==> '-' in descricao && !Contains(Upper(descricao), "PAGAMENTO CARTAO")
    ensures t == "C" || t == "D"
  {
    if Contains(Upper(descricao), "PAGAMENTO CARTAO") then "C"
    else if '-' in descricao then "D" else "C"
  }

  /**
   * The row of the text after a line's date: `None` when it holds no
   * amount; otherwise the first amount is `Valor`, the second, if any,
   * `Saldo`, and the text before the first amount the description.
   */
  function RowOf(name: string, m: Metadata, data: string, resto: string): (r: Option<Row>)
    ensures |FindIter(AmountRe, resto)| == 0 ==> r.None?
    ensures r.Some? ==> r.value.saldo == Written(if |FindIter(AmountRe, resto)| >= 2 then Group(resto, FindIter(AmountRe, resto)[1], 1) else "0,00")
    ensures r.Some? ==> Sound(name, m, r.value)
  {
    var vs := FindIter(AmountRe, resto);
    if |vs| == 0 then None
    else
      AmountsUnsigned(resto);
      var valorStr := Group(resto, vs[0], 1);
      var saldoStr := if |vs| >= 2 then Group(resto, vs[1], 1) else "0,00";
      assert '-' !in valorStr && '-' !in saldoStr;
      var e := Emitted(name, m, data, Description(resto, valorStr), valorStr, saldoStr);
      assert e.Some? ==> Sound(name, m, e.value);
      e
  }

  /** `re.sub(r'\s+', ' ', resto[:resto.find(valor)].strip())` */
  function Description(resto: string, valorStr: string): string
  {
    CollapseSpaces(Strip(Prefix(resto, Find(resto, valorStr))))
  }

  /** The row once the amounts are known: `None` when the description is shorter than three characters or the amount does not convert. */
  function Emitted(name: string, m: Metadata, data: string, descricao: string, valorStr: string, saldoStr: string): (r: Option<Row>)
    ensures r.Some? ==> |descricao| >= 3 && r.value.saldo == Written(saldoStr) && r.value.tipo == Tipo(descricao)
    ensures r.Some? && '-' !in valorStr && '-' !in saldoStr ==> Sound(name, m, r.value)
  {
    if |descricao| < 3 then None
    else
      match BrFloat(valorStr)
      case None => None
      case Some(v) =>
        assert '-' !in valorStr ==> v >= 0 by {
          if '-' !in valorStr {
            UnsignedReadings(valorStr);
          }
        }
        CommaTwoDecimals(v);
        Some(Entry(Plain, m, data, "", Strip(Drop(descricao, '-')), Comma(v), Tipo(descricao), Written(saldoStr)).(arquivo := Some(name)))
  }

  /**
   * One stripped line, given the count of dated lines so far: the new count
   * and the row, if any. Every dated line is counted, whether or not it
   * gives a row.
   */
  function Step(name: string, m: Metadata, count: nat, line: string): (r: (nat, Option<Row>))
    ensures r.0 == count || r.0 == count + 1
    ensures r.1.Some? ==> r.0 == count + 1
    ensures r.0 == count + 1 <==> |line| > 0 && !Contains(line, "SALDO ANTERIOR") && ReMatch(DatedRe, line).Some?
  {
    if |line| == 0 || Contains(line, "SALDO ANTERIOR") then (count, None)
    else
      match ReMatch(DatedRe, line)
      case None => (count, None)
      case Some(x) => (count + 1, RowOf(name, m, Group(line, x, 1), Group(line, x, 2)))
  }

  function Reader(name: string, m: Metadata): LineRead<nat, Row>
  {
    (count: nat, lines: seq<string>, i: nat) =>
      if i < |lines| then
        var r := Step(name, m, count, Strip(lines[i]));
        Some((r.0, Emit(r.1)))
      else Some((count, []))
  }

  /** `reader.pages[0].extract_text()` as `re.search` receives it: `None` when there is no page or its text raises or is `None`. */
  function FirstText(pages: seq<Page>): (t: Option<string>)
    ensures t.Some? <==> |pages| > 0 && pages[0].text.Extracted?
  {
    if |pages| == 0 then None
    else
      match pages[0].text
      case Extracted(s) => Some(s)
      case _ => None
  }

  /** `extract_santander_pypdf2`: the rows, the page count and the count of dated lines, or `None` when it raises. */
  function Extract(doc: Document): (r: Option<(seq<Row>, nat, nat)>)
    ensures r.Some? ==> doc.pages.Some? && |doc.pages.value| > 0 && r.value.1 == |doc.pages.value|
  {
    if doc.pages.None? then None
    else
      match FirstText(doc.pages.value)
      case None => None
      case Some(t) =>
        match PagesRead(Reader(doc.name, ScriptSantander.Fill(ScriptSantander.Bank, t)), 0, doc.pages.value)
        case None => None
        case Some((count, rows)) => Some((rows, |doc.pages.value|, count))
  }

  method ExtractSantanderPypdf2(doc: Document) returns (r: Option<(seq<Row>, nat, nat)>)
    ensures r == Extract(doc)
  {
    if doc.pages.None? {
      return None;
    }
    var pages := doc.pages.value;
    var first := FirstText(pages);
    if first.None? {
      return None;
    }
    var m := ScriptSantander.Fill(ScriptSantander.Bank, first.value);
    var out := ReadPages(Reader(doc.name, m), 0, pages);
    if out.None? {
      return None;
    }
    r := Some((out.value.1, |pages|, out.value.0));
  }

  // ---------------------------------------------------------------------
  // The per-file log of `main`.

  datatype Status = Sucesso | Erro

  datatype FileLog = FileLog(arquivo: string, paginas: nat, totalLido: nat, totalExtraido: nat, totalCreditos: nat, totalDebitos: nat, status: Status)

  /** `len([t for t in rows if t['Tipo'] == tipo])` */
  function Count(rows: seq<Row>, tipo: string): (n: nat)
    ensures n <= |rows|
  {
    if |rows| == 0 then 0 else Count(rows[..|rows| - 1], tipo) + (if rows[|rows| - 1].tipo == tipo then 1 else 0)
  }

  /** The log entry of one file and the rows it adds: a file that raises is logged with zeros and adds nothing. */
  function FileOf(doc: Document): (FileLog, seq<Row>)
  {
    match Extract(doc)
    case None => (FileLog(doc.name, 0, 0, 0, 0, 0, Erro), [])
    case Some((rows, pages, count)) => (FileLog(doc.name, pages, count, |rows|, Count(rows, "C"), Count(rows, "D"), Sucesso), rows)
  }

  function LogOf(c: (), doc: Document): seq<FileLog> { [FileOf(doc).0] }

  function RowsOf(c: (), doc: Document): seq<Row> { FileOf(doc).1 }

  /** The loop of `main`: one log entry per file, in order, and every successful file's rows. */
  method LogFiles(docs: seq<Document>) returns (logs: seq<FileLog>, all: seq<Row>)
    ensures logs == Scan.FlatMap((), docs, LogOf)
    ensures all == Scan.FlatMap((), docs, RowsOf)
  {
    logs, all := [], [];
    var i := 0;
    while i < |docs|
      invariant 0 <= i <= |docs|
      invariant logs == Scan.FlatMap((), docs[..i], LogOf)
      invariant all == Scan.FlatMap((), docs[..i], RowsOf)
    {
      Scan.FlatMapNext((), docs, i, LogOf);
      Scan.FlatMapNext((), docs, i, RowsOf);
      var r := ExtractSantanderPypdf2(docs[i]);
      if r.Some? {
        var (rows, pages, count) := r.value;
        logs := logs + [FileLog(docs[i].name, pages, count, |rows|, Count(rows, "C"), Count(rows, "D"), Sucesso)];
        all := all + rows;
      } else {
        logs := logs + [FileLog(docs[i].name, 0, 0, 0, 0, 0, Erro)];
      }
      i := i + 1;
    }
    assert docs[..i] == docs;
  }

  // ---------------------------------------------------------------------
  // What the rows and the logs satisfy.

  /**
   * A row of this script: unaccented keys and the file name, the bank and
   * code, the branch and account of `m`, no document, a description without
   * '-', a direction 'C' or 'D', an amount that is the two-decimal rendering
   * of the non-negative number it reads back as, and a balance text without
   * a minus sign.
   */
  predicate Sound(name: string, m: Metadata, t: Row)
  {
    && t.spelling == Plain && t.arquivo == Some(name) && t.documento == ""
    && t.banco == m.banco && t.codigo == m.codigoBanco && t.agencia == m.agencia && t.conta == m.conta
    && '-' !in t.descricao && (t.tipo == "C" || t.tipo == "D")
    && TwoDecimals(t.valor) && BrFloat(t.valor.text).value >= 0
    && t.saldo.Written? && '-' !in t.saldo.text
  }

  lemma AmountWithin()
    ensures GroupWithin(AmountRe, 1, AmountClass)
  {
    assert Subclass(Digit, AmountClass);
    assert Subclass(Among("."), AmountClass) by {
      forall c: char | In(c, Among(".")) ensures In(c, AmountClass) {
        assert c == '.';
      }
    }
    assert Subclass(Among(","), AmountClass) by {
      forall c: char | In(c, Among(",")) ensures In(c, AmountClass) {
        assert c == ',';
      }
    }
    assert Within(Cats(AmountParts), AmountClass);
  }

  lemma AmountsUnsigned(resto: string)
    ensures forall j | 0 <= j < |FindIter(AmountRe, resto)| :: '-' !in Group(resto, FindIter(AmountRe, resto)[j], 1)
  {
    AmountWithin();
    FindAmountUnsigned(AmountRe, resto, 1);
  }

  /** No more rows than dated lines: each row comes from a line that was counted. */
  lemma ReaderGrows(name: string, m: Metadata)
    ensures forall s: nat, lines: seq<string>, i: nat | i < |lines| && Reader(name, m)(s, lines, i).Some? ::
      s + |Reader(name, m)(s, lines, i).value.1| <= Reader(name, m)(s, lines, i).value.0
  {
  }

  lemma PassSound(name: string, m: Metadata, pages: seq<Page>)
    ensures PagesRead(Reader(name, m), 0, pages).Some? ==> forall t | t in PagesRead(Reader(name, m), 0, pages).value.1 :: Sound(name, m, t)
  {
    forall s: nat, lines: seq<string>, i: nat, t: Row | i < |lines| && Reader(name, m)(s, lines, i).Some? && t in Reader(name, m)(s, lines, i).value.1
      ensures Sound(name, m, t)
    {
    }
    var ok := (t: Row) => Sound(name, m, t);
    PagesAll(Reader(name, m), 0, pages, ok);
  }

  /**
   * When `extract_santander_pypdf2` returns, every row is `Sound` for the
   * metadata of the first page and the count of dated lines is at least the
   * number of rows.
   */
  lemma ExtractSound(doc: Document)
    ensures Extract(doc).Some? ==>
      var (rows, pages, count) := Extract(doc).value;
      && (forall t | t in rows :: Sound(doc.name, ScriptSantander.Fill(ScriptSantander.Bank, FirstText(doc.pages.value).value), t))
      && |rows| <= count
  {
    if Extract(doc).Some? {
      var m := ScriptSantander.Fill(ScriptSantander.Bank, FirstText(doc.pages.value).value);
      PassSound(doc.name, m, doc.pages.value);
      ReaderGrows(doc.name, m);
      PagesGrow(Reader(doc.name, m), 0, doc.pages.value, (s: nat) => s as int);
    }
  }

  /** Rows that are all credits or debits split into the two counts. */
  lemma {:induction false} CountSplit(rows: seq<Row>)
    requires forall t | t in rows :: t.tipo == "C" || t.tipo == "D"
    ensures Count(rows, "C") + Count(rows, "D") == |rows|
  {
    if |rows| > 0 {
      var front := rows[..|rows| - 1];
      assert forall t | t in front :: t in rows;
      CountSplit(front);
      assert rows[|rows| - 1] in rows;
    }
  }

  /**
   * Every log entry of `main`: credits and debits add up to the rows
   * extracted, no more rows than dated lines were read, and a file that
   * raised is logged with zeros.
   */
  lemma FileLogSound(doc: Document)
    ensures var log := FileOf(doc).0;
      && log.arquivo == doc.name
      && log.totalCreditos + log.totalDebitos == log.totalExtraido == |FileOf(doc).1|
      && log.totalExtraido <= log.totalLido
      && (log.status == Erro <==> Extract(doc).None?)
      && (log.status == Erro ==> log.paginas == 0 && log.totalLido == 0 && log.totalExtraido == 0)
  {
    ExtractSound(doc);
    if Extract(doc).Some? {
      var rows := Extract(doc).value.0;
      CountSplit(rows);
    }
  }

  /** A file that raises does not stop `main`: every file gets its entry, in order. */
  lemma {:induction false} LogsPerFile(docs: seq<Document>)
    ensures Scan.FlatMap((), docs, LogOf) == seq(|docs|, i requires 0 <= i < |docs| => FileOf(docs[i]).0)
  {
    if |docs| > 0 {
      var front := docs[..|docs| - 1];
      LogsPerFile(front);
    }
  }
}
