/**
 * `GenericoMain`: one file of `main` — the bank, the metadata, the
 * transactions, then the duplicates out and the metadata on every row.
 */
module GenericoMain {
  import opened Wrappers
  import opened Text
  import opened Numbers
  import opened Regex
  import opened Patterns
  import opened Pdf
  import Scan
  import opened Generico
  import opened GenericoSound

  // ---------------------------------------------------------------------
  // `main`: duplicates out, metadata on.

  /** A row of the output table: the transaction with the file's bank, code, agency and account. */
  datatype Row = Row(txn: Txn, banco: string, codigoBanco: string, agencia: string, conta: string)

  function Attach(t: Txn, m: Metadata): Row
  {
    Row(t, m.banco, m.codigoBanco, m.agencia, m.conta)
  }

  /** `(t['Data'], t['Descrição'], t['Valor'])` */
  function Key(t: Txn): (string, string, int)
  {
    (t.data, t.descricao, t.valor)
  }

  function KeysOf(ts: seq<Txn>): set<(string, string, int)>
  {
    set t | t in ts :: Key(t)
  }

  /** The positions of the transactions `main` keeps: each one whose key no earlier transaction has. */
  function Firsts(ts: seq<Txn>): (ks: seq<nat>)
    ensures forall j | 0 <= j < |ks| :: ks[j] < |ts|
  {
    if |ts| == 0 then []
    else
      var front := ts[..|ts| - 1];
      if Key(ts[|ts| - 1]) in KeysOf(front) then Firsts(front) else Firsts(front) + [|ts| - 1]
  }

  /** The rows `main` keeps, in the order of the transactions. */
  function Dedup(ts: seq<Txn>, m: Metadata): seq<Row>
  {
    if |ts| == 0 then []
    else
      var front := ts[..|ts| - 1];
      if Key(ts[|ts| - 1]) in KeysOf(front) then Dedup(front, m) else Dedup(front, m) + [Attach(ts[|ts| - 1], m)]
  }

  lemma KeysOfSnoc(ts: seq<Txn>, t: Txn)
    ensures KeysOf(ts + [t]) == KeysOf(ts) + {Key(t)}
  {
    assert forall x | x in ts + [t] :: x in ts || x == t;
  }

  /** The kept rows are the kept positions' transactions, in order, each with the metadata. */
  lemma {:induction false} DedupAt(ts: seq<Txn>, m: Metadata)
    ensures |Dedup(ts, m)| == |Firsts(ts)|
    ensures forall k | 0 <= k < |Firsts(ts)| :: Dedup(ts, m)[k] == Attach(ts[Firsts(ts)[k]], m)
  {
    if |ts| > 0 {
      var front := ts[..|ts| - 1];
      DedupAt(front, m);
      forall k | 0 <= k < |Firsts(front)| ensures ts[Firsts(front)[k]] == front[Firsts(front)[k]] {}
    }
  }

  /** The kept positions are in increasing order. */
  lemma {:induction false} FirstsIncreasing(ts: seq<Txn>)
    ensures forall a, b | 0 <= a < b < |Firsts(ts)| :: Firsts(ts)[a] < Firsts(ts)[b]
  {
    if |ts| > 0 {
      var front := ts[..|ts| - 1];
      FirstsIncreasing(front);
      assert forall k | 0 <= k < |Firsts(front)| :: Firsts(front)[k] < |ts| - 1;
    }
  }

  /** A kept position holds the first transaction with its key. */
  lemma {:induction false} FirstsAreFirst(ts: seq<Txn>)
    ensures forall k | 0 <= k < |Firsts(ts)| :: Key(ts[Firsts(ts)[k]]) !in KeysOf(ts[..Firsts(ts)[k]])
  {
    if |ts| > 0 {
      var front := ts[..|ts| - 1];
      FirstsAreFirst(front);
      var kf, ks := Firsts(front), Firsts(ts);
      assert ts[..|ts| - 1] == front;
      assert ks == kf || (ks == kf + [|ts| - 1] && Key(ts[|ts| - 1]) !in KeysOf(front));
      forall k | 0 <= k < |ks| ensures Key(ts[ks[k]]) !in KeysOf(ts[..ks[k]]) {
        if k < |kf| {
          assert ks[k] == kf[k] && ts[..kf[k]] == front[..kf[k]] && ts[kf[k]] == front[kf[k]];
        } else {
          assert ks[k] == |ts| - 1;
        }
      }
    }
  }

  /** Every position holding the first transaction with its key is kept. */
  lemma {:induction false} FirstsComplete(ts: seq<Txn>)
    ensures forall j | 0 <= j < |ts| && Key(ts[j]) !in KeysOf(ts[..j]) :: j in Firsts(ts)
  {
    if |ts| > 0 {
      var front := ts[..|ts| - 1];
      FirstsComplete(front);
      forall j | 0 <= j < |ts| && Key(ts[j]) !in KeysOf(ts[..j]) ensures j in Firsts(ts) {
        if j < |ts| - 1 {
          assert ts[..j] == front[..j] && ts[j] == front[j];
        }
      }
    }
  }

  /** No two kept rows share a key, and every key of the input is kept. */
  lemma DedupKeys(ts: seq<Txn>, m: Metadata)
    ensures var rows := Dedup(ts, m);
      && (forall a, b | 0 <= a < b < |rows| :: Key(rows[a].txn) != Key(rows[b].txn))
      && (forall t | t in ts :: exists k | 0 <= k < |rows| :: Key(rows[k].txn) == Key(t))
  {
    DedupAt(ts, m);
    FirstsIncreasing(ts);
    FirstsAreFirst(ts);
    FirstsComplete(ts);
    var rows, ks := Dedup(ts, m), Firsts(ts);
    forall a, b | 0 <= a < b < |rows| ensures Key(rows[a].txn) != Key(rows[b].txn) {
      assert ts[ks[a]] in ts[..ks[b]];
    }
    forall t | t in ts ensures exists k | 0 <= k < |rows| :: Key(rows[k].txn) == Key(t) {
      var j := FirstWith(ts, Key(t));
      var k :| 0 <= k < |ks| && ks[k] == j;
      assert rows[k].txn == ts[j];
    }
  }

  /** The first position holding a transaction with key `key`. */
  lemma {:induction false} FirstWith(ts: seq<Txn>, key: (string, string, int)) returns (j: nat)
    requires key in KeysOf(ts)
    ensures j < |ts| && Key(ts[j]) == key && key !in KeysOf(ts[..j])
  {
    var n := |ts| - 1;
    assert ts == ts[..n] + [ts[n]];
    KeysOfSnoc(ts[..n], ts[n]);
    if key in KeysOf(ts[..n]) {
      j := FirstWith(ts[..n], key);
      assert ts[..n][..j] == ts[..j];
    } else {
      j := n;
    }
  }

  /** The loop of `main` with its `seen` set. */
  method DedupLoop(ts: seq<Txn>, m: Metadata) returns (rows: seq<Row>)
    ensures rows == Dedup(ts, m)
  {
    var seen: set<(string, string, int)> := {};
    rows := [];
    var i := 0;
    while i < |ts|
      invariant 0 <= i <= |ts|
      invariant seen == KeysOf(ts[..i]) && rows == Dedup(ts[..i], m)
    {
      assert ts[..i + 1][..i] == ts[..i];
      KeysOfSnoc(ts[..i], ts[i]);
      assert ts[..i + 1] == ts[..i] + [ts[i]];
      var key := Key(ts[i]);
      if key !in seen {
        seen := seen + {key};
        rows := rows + [Attach(ts[i], m)];
      }
      i := i + 1;
    }
    assert ts[..i] == ts;
  }

  // ---------------------------------------------------------------------
  // One file of `main`.

  /** What one file gives: an exception caught by `main`, no transactions, or the table. */
  datatype Outcome = Failed | NoTransactions | Table(meta: Metadata, rows: seq<Row>)

  /** `pdf.pages[0].extract_text() if pdf.pages else ""`, `None` when that text is missing and `upper` would raise. */
  function FirstText(pages: seq<Page>): Option<string>
  {
    if |pages| == 0 then Some("")
    else
      match pages[0].text
      case Extracted(s) => Some(s)
      case _ => None
  }

  /** The body of `main`'s `try` for one file; the reference year of Itaú's PIX lines is a parameter. */
  function ProcessFile(year: nat, doc: Document): Outcome
  {
    if doc.pages.None? then Failed
    else
      match FirstText(doc.pages.value)
      case None => Failed
      case Some(first) => ProcessPages(year, doc.name, first, doc.pages.value)
  }

  /** The bank from the first page's text and the file name, the metadata from that text, then every page's transactions. */
  function ProcessPages(year: nat, name: string, first: string, pages: seq<Page>): Outcome
  {
    var bank := FileBank(first, name);
    var meta := ExtractMetadata(first, bank);
    Tabulate(meta, AllPages(BranchOf(bank), year, pages))
  }

  /** `if not transactions: continue`, otherwise the first transaction with each key, with the metadata. */
  function Tabulate(meta: Metadata, r: Option<(Option<string>, seq<Txn>)>): Outcome
  {
    match r
    case None => Failed
    case Some((_, ts)) => if |ts| == 0 then NoTransactions else Table(meta, Dedup(ts, meta))
  }

  /**
   * A table holds at least one row, no two rows share a key, and every row
   * has non-negative amounts, a C/D direction and the file's metadata.
   */
  predicate TableSound(o: Outcome)
  {
    o.Table? ==>
      && |o.rows| > 0
      && (forall a, b | 0 <= a < b < |o.rows| :: Key(o.rows[a].txn) != Key(o.rows[b].txn))
      && forall r | r in o.rows :: Sound(r.txn) && r == Attach(r.txn, o.meta)
  }

  lemma TabulateSound(meta: Metadata, r: Option<(Option<string>, seq<Txn>)>)
    requires r.Some? ==> AllSound(r.value.1)
    ensures TableSound(Tabulate(meta, r))
  {
    if r.Some? && |r.value.1| > 0 {
      var ts := r.value.1;
      DedupKeys(ts, meta);
      assert ts[0] in ts;
      DedupRows(ts, meta);
    }
  }

  /** Every kept row is a sound transaction of the input with the metadata. */
  lemma DedupRows(ts: seq<Txn>, m: Metadata)
    requires AllSound(ts)
    ensures forall row | row in Dedup(ts, m) :: row.txn in ts && Sound(row.txn) && row == Attach(row.txn, m)
  {
    DedupAt(ts, m);
    var rows := Dedup(ts, m);
    forall row | row in rows ensures row.txn in ts && row == Attach(row.txn, m) {
      var k :| 0 <= k < |rows| && rows[k] == row;
      assert row.txn == ts[Firsts(ts)[k]];
    }
  }

  /** Whatever file `main` tabulates, its table is sound in the sense of `TableSound`. */
  lemma ProcessFileSound(year: nat, doc: Document)
    ensures TableSound(ProcessFile(year, doc))
  {
    if doc.pages.Some? && FirstText(doc.pages.value).Some? {
      var pages := doc.pages.value;
      var first := FirstText(pages).value;
      var bank := FileBank(first, doc.name);
      AllPagesSound(BranchOf(bank), year, pages);
      TabulateSound(ExtractMetadata(first, bank), AllPages(BranchOf(bank), year, pages));
    }
  }

  /** `main`'s steps for one file, in order. */
  method ProcessFileRun(year: nat, doc: Document) returns (o: Outcome)
    ensures o == ProcessFile(year, doc)
  {
    if doc.pages.None? {
      return Failed;
    }
    var pages := doc.pages.value;
    var first := FirstText(pages);
    if first.None? {
      return Failed;
    }
    var bank := FileBank(first.value, doc.name);
    var meta := ExtractMetadata(first.value, bank);
    var r := ExtractTransactionsAllPages(BranchOf(bank), year, pages);
    if r.None? {
      return Failed;
    }
    var ts := r.value.1;
    if |ts| == 0 {
      return NoTransactions;
    }
    var rows := DedupLoop(ts, meta);
    o := Table(meta, rows);
    assert o == Tabulate(meta, r);
  }
}
