/**
 * The folder run of the Banco do Brasil extractor, and the adapter that puts
 * the same extractor behind the common interface. Every file is read with the
 * page and table rules of `Bb`, each row stamped with the file's name; the
 * folder run merges the files that gave rows, drops exact duplicate rows and
 * orders them by file and movement date, and collects the accounts of all files.
 */
module BbFolder {
  import opened Wrappers
  import opened Numbers
  import opened Dates
  import opened Pdf
  import opened Frames
  import opened BaseExtractor
  import Bb
  import Scan

  // ---------------------------------------------------------------------
  // One file.

  /** The columns of a file's table: `arquivo` and then those of the single-file extractor. */
  const FileKeys: seq<string> := Bb.Keys(Some(""))

  /** A table cell that fits the statement: a numeric amount whose sign agrees with its `tipo`. */
  predicate SignedRow(r: Row)
  {
    && Get(r, "valor").Num?
    && (Get(r, "tipo") == Str("credit") ==> Get(r, "valor").cents >= 0)
    && (Get(r, "tipo") == Str("debit") ==> Get(r, "valor").cents <= 0)
  }

  /** The outcome of reading one file: its table and accounts, or the exception it raised. */
  type Outcome = Result<(Frame, map<string, Bb.PageInfo>)>

  /**
   * What reading a file guarantees: a well-formed table, without columns
   * when it has no rows, otherwise with `arquivo`, `tipo` and `valor` columns
   * and no `data_obj` one, and with sign-consistent rows.
   */
  ghost predicate FileTable(e: Outcome)
  {
    e.Ok? ==> var f := e.value.0;
      && WellFormed(f)
      && (|f.rows| == 0 ==> f.columns == [])
      && (|f.rows| > 0 ==> "arquivo" in f.columns && "tipo" in f.columns && "valor" in f.columns && DateKey !in f.columns)
      && forall i | 0 <= i < |f.rows| :: SignedRow(f.rows[i])
  }

  /** Every row of the table carries the file's name. */
  predicate Named(name: string, e: Outcome)
  {
    e.Ok? ==> forall i | 0 <= i < |e.value.0.rows| :: Get(e.value.0.rows[i], "arquivo") == Str(name)
  }

  /**
   * `extract_bb_statement(pdf_path)` of the folder extractor: the rows of the
   * single-file extractor, each stamped with the file's name, and the accounts.
   */
  function ExtractFile(doc: Document): Outcome
  {
    match Bb.Extract(doc)
    case Err(e) => Err(e)
    case Ok((ts, contas)) => Ok((Bb.TxnFrame(Some(doc.name), ts), contas))
  }

  /**
   * A file reads exactly when the single-file extractor reads it, with as
   * many rows and the same accounts; its table is well formed, has the
   * single-file columns after `arquivo` when it has rows, carries the file's
   * name in every row and keeps every amount's sign in line with its `tipo`.
   */
  lemma ExtractFileTable(doc: Document)
    ensures var r := ExtractFile(doc);
      && (r.Ok? <==> Bb.Extract(doc).Ok?)
      && (r.Ok? ==> |r.value.0.rows| == |Bb.Extract(doc).value.0| && r.value.1 == Bb.Extract(doc).value.1)
      && (r.Ok? && |r.value.0.rows| > 0 ==> r.value.0.columns == FileKeys)
      && FileTable(r) && Named(doc.name, r)
  {
    match Bb.Extract(doc)
    case Err(e) =>
    case Ok((ts, contas)) =>
      var f := Bb.TxnFrame(Some(doc.name), ts);
      FileKeysHas();
      assert Bb.Keys(Some(doc.name)) == FileKeys;
      Bb.PagesAgree(doc.pages.value);
      forall i | 0 <= i < |ts| ensures Get(f.rows[i], "arquivo") == Str(doc.name) && SignedRow(f.rows[i]) {
        assert ts[i] in ts;
        Bb.RowGet(Some(doc.name), ts[i], "arquivo");
        Bb.TxnCells(Some(doc.name), ts[i]);
      }
  }

  /** The outcomes of the files, in folder order. */
  function Outcomes(docs: seq<Document>): (es: seq<Outcome>)
    ensures |es| == |docs| && forall i | 0 <= i < |docs| :: es[i] == ExtractFile(docs[i])
  {
    seq(|docs|, i requires 0 <= i < |docs| => ExtractFile(docs[i]))
  }

  /** Every outcome of the folder is a file table. */
  lemma OutcomesTables(docs: seq<Document>)
    ensures forall i | 0 <= i < |docs| :: FileTable(Outcomes(docs)[i]) && Named(docs[i].name, Outcomes(docs)[i])
  {
    forall i | 0 <= i < |docs| ensures FileTable(Outcomes(docs)[i]) && Named(docs[i].name, Outcomes(docs)[i]) {
      ExtractFileTable(docs[i]);
    }
  }

  /** A file that opened and gave at least one row, and so goes into the merge. */
  predicate Kept(e: Outcome)
  {
    e.Ok? && !IsEmpty(e.value.0)
  }

  lemma FileKeysHas()
    ensures "arquivo" in FileKeys && "tipo" in FileKeys && "valor" in FileKeys && DateKey !in FileKeys
  {
    assert FileKeys[0] == "arquivo" && FileKeys[4] == "valor" && FileKeys[6] == "tipo";
  }

  /** A table of the merge: one file's non-empty, well-formed, sign-consistent rows. */
  ghost predicate Part(f: Frame)
  {
    FileTable(Ok((f, map[]))) && |f.rows| > 0
  }

  // ---------------------------------------------------------------------
  // The file loop.

  /** `all_transactions` and `all_contas` as the loop builds them. */
  datatype Gathered = Gathered(parts: seq<Frame>, contas: map<string, Bb.PageInfo>)

  const Start := Gathered([], map[])

  /**
   * One iteration: a file that raised or gave an empty table leaves
   * everything as it was; otherwise its table is appended and its accounts
   * are merged in, overwriting those of earlier files.
   */
  function Step(g: Gathered, e: Outcome): Gathered
  {
    match e
    case Err(_) => g
    case Ok((f, contas)) => if IsEmpty(f) then g else Gathered(g.parts + [f], g.contas + contas)
  }

  /**
   * The loop over the outcomes `es` from the state `g`: what was gathered
   * before is kept, and a table is added exactly when some file gave rows.
   */
  function GatherFrom(g: Gathered, es: seq<Outcome>): (r: Gathered)
    ensures |g.parts| <= |r.parts| && r.parts[..|g.parts|] == g.parts
    ensures |r.parts| == |g.parts| <==> forall i | 0 <= i < |es| :: !Kept(es[i])
  {
    if |es| == 0 then g
    else
      var front := GatherFrom(g, es[..|es| - 1]);
      var e := es[|es| - 1];
      assert forall i | 0 <= i < |es| - 1 :: es[..|es| - 1][i] == es[i];
      if Kept(e) then
        var r := Step(front, e);
        assert r.parts == front.parts + [e.value.0];
        assert r.parts[..|g.parts|] == front.parts[..|g.parts|];
        r
      else front
  }

  /** Every table the loop adds is one file's non-empty table. */
  lemma {:induction false} GatherParts(g: Gathered, es: seq<Outcome>)
    requires forall i | 0 <= i < |es| :: FileTable(es[i])
    ensures forall k | |g.parts| <= k < |GatherFrom(g, es).parts| :: Part(GatherFrom(g, es).parts[k])
  {
    if |es| > 0 {
      var n := |es| - 1;
      GatherParts(g, es[..n]);
      assert FileTable(es[..n + 1][n]);
    }
  }

  /** Running the loop over two stretches of files is running it over both. */
  lemma {:induction false} GatherAppend(g: Gathered, a: seq<Outcome>, b: seq<Outcome>)
    ensures GatherFrom(g, a + b) == GatherFrom(GatherFrom(g, a), b)
    decreases |b|
  {
    if |b| == 0 {
      assert a + b == a;
    } else {
      assert (a + b)[..|a + b| - 1] == a + b[..|b| - 1];
      GatherAppend(g, a, b[..|b| - 1]);
    }
  }

  /**
   * A file that raised, or gave no rows, changes nothing: the outcome over
   * the other files is the same with or without it, wherever it stands.
   */
  lemma FailureIsolated(a: seq<Outcome>, bad: Outcome, b: seq<Outcome>)
    requires !Kept(bad)
    ensures GatherFrom(Start, a + [bad] + b) == GatherFrom(Start, a + b)
  {
    GatherAppend(Start, a + [bad], b);
    GatherAppend(Start, a, [bad]);
    GatherAppend(Start, a, b);
    assert GatherFrom(GatherFrom(Start, a), [bad]) == GatherFrom(Start, a) by {
      assert [bad][..0] == [];
    }
  }

  /** The outcome `e` gave rows and lists account `k`. */
  predicate Provides(e: Outcome, k: string)
  {
    Kept(e) && k in e.value.1
  }

  /** File `i` is the last one to provide account `k`. */
  predicate LastProviding(es: seq<Outcome>, k: string, i: nat)
  {
    i < |es| && Provides(es[i], k) && forall j | i < j < |es| :: !Provides(es[j], k)
  }

  /**
   * `all_contas.update(contas_info)`: an account is known exactly when some
   * file that gave rows lists it, and its entry is that of the last such file.
   */
  lemma ContasLast(es: seq<Outcome>, k: string)
    ensures k in GatherFrom(Start, es).contas <==> exists i | 0 <= i < |es| :: Provides(es[i], k)
    ensures k in GatherFrom(Start, es).contas ==>
      exists i: nat :: LastProviding(es, k, i) && GatherFrom(Start, es).contas[k] == es[i].value.1[k]
  {
    ContasKeys(es, k);
    if k in GatherFrom(Start, es).contas {
      ContasEntry(es, k);
    }
  }

  /** The map after one more file: its accounts overwrite the earlier ones when it gave rows. */
  lemma ContasStep(es: seq<Outcome>, k: string)
    requires |es| > 0
    ensures var n := |es| - 1; var before := GatherFrom(Start, es[..n]).contas; var after := GatherFrom(Start, es).contas;
      && (Provides(es[n], k) ==> k in after && after[k] == es[n].value.1[k])
      && (!Provides(es[n], k) ==> (k in after <==> k in before) && (k in before ==> after[k] == before[k]))
  {
    var n := |es| - 1;
    assert GatherFrom(Start, es) == Step(GatherFrom(Start, es[..n]), es[n]);
  }

  lemma {:induction false} ContasKeys(es: seq<Outcome>, k: string)
    ensures k in GatherFrom(Start, es).contas <==> exists i | 0 <= i < |es| :: Provides(es[i], k)
  {
    if |es| > 0 {
      var n := |es| - 1;
      var front := es[..n];
      ContasStep(es, k);
      ContasKeys(front, k);
      if exists i | 0 <= i < |es| :: Provides(es[i], k) {
        var i :| 0 <= i < |es| && Provides(es[i], k);
        if i < n {
          assert front[i] == es[i];
        }
      }
      if exists i | 0 <= i < |front| :: Provides(front[i], k) {
        var i :| 0 <= i < |front| && Provides(front[i], k);
        assert front[i] == es[i];
      }
    }
  }

  lemma {:induction false} ContasEntry(es: seq<Outcome>, k: string)
    requires k in GatherFrom(Start, es).contas
    ensures exists i: nat :: LastProviding(es, k, i) && GatherFrom(Start, es).contas[k] == es[i].value.1[k]
  {
    if |es| == 0 {
      assert false;
    }
    var n := |es| - 1;
    var front := es[..n];
    ContasStep(es, k);
    if Provides(es[n], k) {
      assert LastProviding(es, k, n);
    } else {
      ContasEntry(front, k);
      var i: nat :| LastProviding(front, k, i) && GatherFrom(Start, front).contas[k] == front[i].value.1[k];
      assert front[i] == es[i];
      assert LastProviding(es, k, i);
    }
  }

  // ---------------------------------------------------------------------
  // The merge: concatenate, drop duplicates, order by file and date.

  const DateKey := "data_obj"

  const SortKeys: seq<string> := ["arquivo", "data_obj"]

  /** A row with its `data_obj` cell: `data_movimento` read back as a date, missing when it does not parse. */
  function WithDate(r: Row): Row
  {
    r[DateKey := ToDate(Get(r, "data_movimento"))]
  }

  /** A row without its `data_obj` cell. */
  function Undate(r: Row): Row
  {
    r - {DateKey}
  }

  /** `final_df['data_obj'] = pd.to_datetime(final_df['data_movimento'], format='%d/%m/%Y')` */
  function AddDate(f: Frame): (g: Frame)
    requires WellFormed(f)
    ensures WellFormed(g) && DateKey in g.columns
    ensures DateKey !in f.columns ==> g.columns == f.columns + [DateKey]
    ensures |g.rows| == |f.rows| && forall i | 0 <= i < |f.rows| :: g.rows[i] == WithDate(f.rows[i])
  {
    var cs := if DateKey in f.columns then f.columns else f.columns + [DateKey];
    Frame(cs, seq(|f.rows|, i requires 0 <= i < |f.rows| => WithDate(f.rows[i])))
  }

  /** Rows that come in order of file and then movement date, as `sort_values(['arquivo', 'data_obj'])` leaves them. */
  predicate InFileDateOrder(rs: seq<Row>)
  {
    forall i | 0 <= i < |rs| - 1 :: RowLe(WithDate(rs[i]), WithDate(rs[i + 1]), SortKeys)
  }

  /** The concatenated tables without exact duplicates, with their `data_obj` column, sorted by file and date. */
  function SortedDated(parts: seq<Frame>): (s: Frame)
    ensures WellFormed(s) && DateKey in s.columns
  {
    SortBy(AddDate(DropDuplicates(Concat(parts))), SortKeys)
  }

  /** `pd.concat`, `drop_duplicates()`, then the sort through a temporary `data_obj` column, dropped again. */
  function Merge(parts: seq<Frame>): (f: Frame)
    ensures WellFormed(f)
  {
    DropColumns(SortedDated(parts), [DateKey]).value
  }

  /** Dropping the `data_obj` column takes that cell out of row `i` and leaves the rest. */
  lemma UndateRow(s: Frame, i: nat)
    requires WellFormed(s) && DateKey in s.columns && i < |s.rows|
    ensures DropColumns(s, [DateKey]).value.rows[i] == Undate(s.rows[i])
  {
    var a, b := DropColumns(s, [DateKey]).value.rows[i], Undate(s.rows[i]);
    assert Shaped(a, DropColumns(s, [DateKey]).value.columns) && Shaped(s.rows[i], s.columns);
    forall col | col in a ensures a[col] == b[col] {
      assert Get(a, col) == Get(s.rows[i], col);
    }
  }

  /** Dropping the `data_obj` column takes that cell out of every row and leaves the rest. */
  lemma DropUndates(s: Frame)
    requires WellFormed(s) && DateKey in s.columns
    ensures DropColumns(s, [DateKey]).value.rows == Scan.Each(s.rows, Undate)
  {
    Scan.EachAll(s.rows, Undate);
    forall i | 0 <= i < |s.rows| ensures DropColumns(s, [DateKey]).value.rows[i] == Undate(s.rows[i]) {
      UndateRow(s, i);
    }
  }

  /** Taking `data_obj` off the dated rows gives back the rows it was added to. */
  lemma UndateDated(d: Frame)
    requires WellFormed(d) && DateKey !in d.columns
    ensures Scan.Each(AddDate(d).rows, Undate) == d.rows
  {
    Scan.EachAll(AddDate(d).rows, Undate);
    forall i | 0 <= i < |d.rows| ensures Undate(AddDate(d).rows[i]) == d.rows[i] {
      assert Shaped(d.rows[i], d.columns);
    }
  }

  /** A row the dating produced is its undated row with the date put back. */
  lemma RedateDated(d: Frame, x: Row)
    requires WellFormed(d) && DateKey !in d.columns && x in AddDate(d).rows
    ensures WithDate(Undate(x)) == x
  {
    var j :| 0 <= j < |AddDate(d).rows| && AddDate(d).rows[j] == x;
    assert Shaped(d.rows[j], d.columns);
    assert Undate(x) == d.rows[j];
  }

  /**
   * The merged rows are the distinct rows of the concatenated tables, each
   * exactly once and nothing else, in some order.
   */
  lemma MergeRows(parts: seq<Frame>)
    requires forall k | 0 <= k < |parts| :: DateKey !in parts[k].columns
    ensures var f := Merge(parts); var c := Concat(parts);
      && multiset(f.rows) == multiset(Dedup(c.rows))
      && (forall r :: r in f.rows <==> r in c.rows)
      && (forall i, j | 0 <= i < j < |f.rows| :: f.rows[i] != f.rows[j])
      && |f.rows| <= |c.rows|
  {
    var c := Concat(parts);
    var d := DropDuplicates(c);
    var h := AddDate(d);
    var s := SortedDated(parts);
    var f := Merge(parts);
    DropUndates(s);
    UndateDated(d);
    Scan.EachPerm(s.rows, h.rows, Undate);
    Scan.DistinctPerm(d.rows, f.rows);
    forall r ensures r in f.rows <==> r in c.rows {
      assert r in f.rows <==> r in multiset(f.rows);
      assert r in d.rows <==> r in multiset(d.rows);
    }
  }

  /** The merged rows come ordered by file name and then movement date. */
  lemma MergeOrder(parts: seq<Frame>)
    requires forall k | 0 <= k < |parts| :: DateKey !in parts[k].columns
    ensures InFileDateOrder(Merge(parts).rows)
  {
    var d := DropDuplicates(Concat(parts));
    var h := AddDate(d);
    var s := SortedDated(parts);
    var f := Merge(parts);
    DropUndates(s);
    Scan.EachAll(s.rows, Undate);
    forall i | 0 <= i < |s.rows| ensures WithDate(f.rows[i]) == s.rows[i] {
      assert s.rows[i] in multiset(h.rows);
      RedateDated(d, s.rows[i]);
    }
  }

  /** The merged table has exactly the columns of the concatenated ones. */
  lemma MergeColumns(parts: seq<Frame>)
    requires forall k | 0 <= k < |parts| :: DateKey !in parts[k].columns
    ensures forall col :: col in Merge(parts).columns <==> exists k | 0 <= k < |parts| :: col in parts[k].columns
  {
  }

  /** What the loop and the merge give for the outcomes `es`. */
  function Collected(es: seq<Outcome>): (r: Option<(Frame, map<string, Bb.PageInfo>)>)
    ensures r.None? <==> forall i | 0 <= i < |es| :: !Kept(es[i])
  {
    if |es| == 0 then None
    else
      var g := GatherFrom(Start, es);
      if |g.parts| == 0 then None else Some((Merge(g.parts), g.contas))
  }

  /**
   * `process_all_pdfs`: `None` when there is no file or no file gave rows;
   * otherwise the merged table and the accounts of the files that gave rows.
   */
  function ProcessAll(docs: seq<Document>): (r: Option<(Frame, map<string, Bb.PageInfo>)>)
  {
    Collected(Outcomes(docs))
  }

  /** `process_all_pdfs` returns `None` exactly when no file opened with a row. */
  lemma ProcessAllNone(docs: seq<Document>)
    ensures ProcessAll(docs).None? <==> forall i | 0 <= i < |docs| :: !Kept(ExtractFile(docs[i]))
  {
  }

  /** The parts concatenated: every row is one of some part's rows, widened to the union of the columns. */
  lemma {:induction false} ConcatRowsFrom(parts: seq<Frame>, r: Row)
    requires r in ConcatRows(parts)
    ensures exists k | 0 <= k < |parts| :: r in parts[k].rows
  {
    var n := |parts| - 1;
    if r !in parts[n].rows {
      ConcatRowsFrom(parts[..n], r);
      var k :| 0 <= k < n && r in parts[..n][k].rows;
    }
  }

  /** Concatenating parts keeps every row's `tipo` and `valor`, so every row stays sign-consistent. */
  lemma ConcatSigned(parts: seq<Frame>)
    requires |parts| > 0 && forall k | 0 <= k < |parts| :: Part(parts[k])
    ensures forall i | 0 <= i < |Concat(parts).rows| :: SignedRow(Concat(parts).rows[i])
  {
    forall i | 0 <= i < |Concat(parts).rows| ensures SignedRow(Concat(parts).rows[i]) {
      ConcatRowSigned(parts, i);
    }
  }

  lemma ConcatRowSigned(parts: seq<Frame>, i: nat)
    requires forall k | 0 <= k < |parts| :: Part(parts[k])
    requires i < |Concat(parts).rows|
    ensures SignedRow(Concat(parts).rows[i])
  {
    var rs := ConcatRows(parts);
    ConcatRowsFrom(parts, rs[i]);
    var k :| 0 <= k < |parts| && rs[i] in parts[k].rows;
    PartRow(parts[k], rs[i]);
    var c := Concat(parts);
    assert "tipo" in c.columns && "valor" in c.columns;
    assert Get(c.rows[i], "tipo") == Get(rs[i], "tipo") && Get(c.rows[i], "valor") == Get(rs[i], "valor");
  }

  lemma PartRow(f: Frame, r: Row)
    requires Part(f) && r in f.rows
    ensures SignedRow(r) && "tipo" in f.columns && "valor" in f.columns
  {
    var i :| 0 <= i < |f.rows| && f.rows[i] == r;
  }

  /** Every row of the merge of file tables has a numeric amount whose sign agrees with its `tipo`. */
  lemma MergeSigned(parts: seq<Frame>)
    requires |parts| > 0 && forall k | 0 <= k < |parts| :: Part(parts[k])
    ensures forall i | 0 <= i < |Merge(parts).rows| :: SignedRow(Merge(parts).rows[i])
  {
    ConcatSigned(parts);
    assert forall k | 0 <= k < |parts| :: DateKey !in parts[k].columns by {
      assert forall k | 0 <= k < |parts| :: Part(parts[k]);
    }
    MergeRows(parts);
    var f := Merge(parts);
    forall i | 0 <= i < |f.rows| ensures SignedRow(f.rows[i]) {
      assert f.rows[i] in Concat(parts).rows;
    }
  }

  /** One file of the loop: `extract_bb_statement` inside the `try`. */
  method ReadFile(doc: Document) returns (e: Outcome)
    ensures e == ExtractFile(doc)
  {
    e := ExtractFile(doc);
  }

  /** The merge steps of `process_all_pdfs`, one after the other. */
  method MergeParts(parts: seq<Frame>) returns (f: Frame)
    ensures f == Merge(parts)
  {
    var c := Concat(parts);
    var d := DropDuplicates(c);
    var h := AddDate(d);
    var s := SortBy(h, SortKeys);
    var g := DropColumns(s, [DateKey]);
    f := g.value;
  }

  /** One more outcome is one more step of the loop. */
  lemma GatherSnoc(g: Gathered, es: seq<Outcome>, i: nat)
    requires i < |es|
    ensures GatherFrom(g, es[..i + 1]) == Step(GatherFrom(g, es[..i]), es[i])
  {
    assert es[..i + 1][..i] == es[..i];
  }

  /** One turn of the loop of `process_all_pdfs`: read the file, and keep its table and accounts when it has rows. */
  method GatherFile(g: Gathered, doc: Document) returns (h: Gathered)
    ensures h == Step(g, ExtractFile(doc))
  {
    var e := ReadFile(doc);
    h := g;
    if e.Ok? && !IsEmpty(e.value.0) {
      h := Gathered(g.parts + [e.value.0], g.contas + e.value.1);
    }
  }

  /** The loop of `process_all_pdfs`, the exceptions of a file caught, and the merge. */
  method ProcessAllPdfs(docs: seq<Document>) returns (r: Option<(Frame, map<string, Bb.PageInfo>)>)
    ensures r == ProcessAll(docs)
  {
    ghost var es := Outcomes(docs);
    if |docs| == 0 {
      return None;
    }
    var g := Start;
    var i := 0;
    while i < |docs|
      invariant 0 <= i <= |docs|
      invariant g == GatherFrom(Start, es[..i])
    {
      g := GatherFile(g, docs[i]);
      GatherSnoc(Start, es, i);
      i := i + 1;
    }
    assert es[..i] == es;
    if |g.parts| == 0 {
      return None;
    }
    var f := MergeParts(g.parts);
    r := Some((f, g.contas));
  }

  // ---------------------------------------------------------------------
  // The per-file and per-account figures printed after the merge.

  /** `final_df[final_df[col] == key]` */
  function RowsWhere(rs: seq<Row>, col: string, key: string): (out: seq<Row>)
    ensures |out| <= |rs|
    ensures forall r :: r in out <==> r in rs && Get(r, col) == Str(key)
  {
    if |rs| == 0 then []
    else
      var front := RowsWhere(rs[..|rs| - 1], col, key);
      var r := rs[|rs| - 1];
      assert forall x | x in rs :: x in rs[..|rs| - 1] || x == r;
      if Get(r, col) == Str(key) then front + [r] else front
  }

  /** The credits (sum of credit `valor`) and debits (absolute sum of debit `valor`) of the rows whose `col` is `key`. */
  function GroupTotals(f: Frame, col: string, key: string): (int, nat)
  {
    var rs := RowsWhere(f.rows, col, key);
    (SumOf(rs, "credit"), Abs(SumOf(rs, "debit")))
  }

  lemma {:induction false} SignedSums(rs: seq<Row>)
    requires forall r | r in rs :: SignedRow(r)
    ensures SumOf(rs, "credit") >= 0 && SumOf(rs, "debit") <= 0
  {
    if |rs| > 0 {
      assert forall r | r in rs[..|rs| - 1] :: r in rs;
      SignedSums(rs[..|rs| - 1]);
      assert rs[|rs| - 1] in rs;
    }
  }

  /**
   * On sign-consistent rows the credits are never negative and the
   * absolute value taken for the debits is just their negated sum.
   */
  lemma TotalsSigned(f: Frame, col: string, key: string)
    requires forall i | 0 <= i < |f.rows| :: SignedRow(f.rows[i])
    ensures GroupTotals(f, col, key).0 >= 0
    ensures GroupTotals(f, col, key).1 == -SumOf(RowsWhere(f.rows, col, key), "debit")
  {
    var rs := RowsWhere(f.rows, col, key);
    forall r | r in rs ensures SignedRow(r) {
      var i :| 0 <= i < |f.rows| && f.rows[i] == r;
    }
    SignedSums(rs);
  }

  /**
   * The figures of the folder run, for the tables the loop gathered: per
   * file and per account, credits are never negative and debits are the
   * negated debit sum.
   */
  lemma FolderTotals(parts: seq<Frame>, col: string, key: string)
    requires |parts| > 0 && forall k | 0 <= k < |parts| :: Part(parts[k])
    ensures var f := Merge(parts);
      GroupTotals(f, col, key).0 >= 0 && GroupTotals(f, col, key).1 == -SumOf(RowsWhere(f.rows, col, key), "debit")
  {
    MergeSigned(parts);
    TotalsSigned(Merge(parts), col, key);
  }

  // ---------------------------------------------------------------------
  // The adapter.

  /** The keys of the adapter's `column_mapping`, each of which it maps to itself. */
  const MappedNames: seq<string> :=
    ["data_movimento", "historico", "documento", "valor", "saldo", "tipo", "conta", "agencia", "banco"]

  /** `df.rename(columns=column_mapping)` for a mapping that sends each name to itself. */
  function RenameSame(f: Frame, names: seq<string>): (g: Frame)
    requires WellFormed(f)
    ensures WellFormed(g)
    decreases |names|
  {
    if |names| == 0 then f else RenameSame(Rename(f, names[0], names[0]), names[1..])
  }

  /** Renaming a column to itself changes nothing. */
  lemma RenameSelf(f: Frame, a: string)
    requires WellFormed(f)
    ensures Rename(f, a, a) == f
  {
    var g := Rename(f, a, a);
    if a in f.columns {
      assert g.columns == f.columns;
      forall i | 0 <= i < |f.rows| ensures g.rows[i] == f.rows[i] {
        assert Shaped(f.rows[i], f.columns);
      }
    }
  }

  /** The identity mapping leaves the table as it is. */
  lemma {:induction false} RenameSameIdentity(f: Frame, names: seq<string>)
    requires WellFormed(f)
    ensures RenameSame(f, names) == f
  {
    if |names| > 0 {
      RenameSelf(f, names[0]);
      RenameSameIdentity(f, names[1..]);
    }
  }

  /** Writing into every row the `arquivo` it already has changes nothing. */
  lemma StampSame(f: Frame, name: string)
    requires WellFormed(f) && "arquivo" in f.columns
    requires forall i | 0 <= i < |f.rows| :: Get(f.rows[i], "arquivo") == Str(name)
    ensures SetColumn(f, "arquivo", Str(name)) == f
  {
    var g := SetColumn(f, "arquivo", Str(name));
    forall i | 0 <= i < |f.rows| ensures g.rows[i] == f.rows[i] {
      assert Shaped(f.rows[i], f.columns);
    }
  }

  /** `BBExtractorAdapter.extract_statement` on the outcome of reading file `name`, as the source writes it. */
  function Adapt(name: string, e: Outcome): (r: Outcome)
    requires FileTable(e)
    ensures r.Err? <==> e.Err?
  {
    match e
    case Err(msg) => Err(msg)
    case Ok((f, contas)) =>
      if IsEmpty(f) then Ok((f, contas))
      else
        var g := SetColumn(RenameSame(f, MappedNames), "arquivo", Str(name));
        Ok((Standardize(g), contas))
  }

  function AdapterExtract(doc: Document): Outcome
  {
    ExtractFileTable(doc);
    Adapt(doc.name, ExtractFile(doc))
  }

  /**
   * The adapter only standardises the file's table: an empty one comes back
   * as it is, the accounts always do, and the row count never changes; the
   * rename and the `arquivo` assignment leave the table untouched.
   */
  lemma AdapterStandardizes(name: string, e: Outcome)
    requires e.Ok? && FileTable(e) && Named(name, e)
    ensures var (f, contas) := e.value;
      && Adapt(name, e) == Ok((if IsEmpty(f) then f else Standardize(f), contas))
      && |Adapt(name, e).value.0.rows| == |f.rows|
  {
    var (f, contas) := e.value;
    if !IsEmpty(f) {
      RenameSameIdentity(f, MappedNames);
      StampSame(f, name);
    }
  }

  /** After the adapter every row of a non-empty result has the file's name and all standard columns are present. */
  lemma AdapterRows(name: string, e: Outcome)
    requires Kept(e) && FileTable(e) && Named(name, e)
    ensures var g := Adapt(name, e).value.0;
      && g.columns == Layout(e.value.0.columns)
      && (forall c | c in StandardColumns :: c in g.columns)
      && forall i | 0 <= i < |g.rows| :: Get(g.rows[i], "arquivo") == Str(name)
  {
    AdapterStandardizes(name, e);
    StandardizedNamed(name, e.value.0);
  }

  lemma StandardizedNamed(name: string, f: Frame)
    requires WellFormed(f) && "arquivo" in f.columns
    requires forall i | 0 <= i < |f.rows| :: Get(f.rows[i], "arquivo") == Str(name)
    ensures var g := Standardize(f);
      && (forall c | c in StandardColumns :: c in g.columns)
      && forall i | 0 <= i < |g.rows| :: Get(g.rows[i], "arquivo") == Str(name)
  {
    LayoutHasStandard(f.columns);
    forall i | 0 <= i < |f.rows| ensures Get(Standardize(f).rows[i], "arquivo") == Str(name) {
      StandardizeCell(f, i, "arquivo");
    }
  }

  /** The adapter's steps in order: extract, and for a non-empty table rename, set `arquivo`, standardise. */
  method AdapterExtractStatement(doc: Document) returns (r: Outcome)
    ensures r == AdapterExtract(doc)
  {
    var e := ReadFile(doc);
    ExtractFileTable(doc);
    if e.Err? {
      return Err(e.msg);
    }
    var (f, contas) := e.value;
    if IsEmpty(f) {
      return Ok((f, contas));
    }
    var g := RenameSame(f, MappedNames);
    g := SetColumn(g, "arquivo", Str(doc.name));
    g := StandardizeOutput(g);
    r := Ok((g, contas));
  }
}
