/**
 * `ItauAdapter`: the Itaú extractor behind the common interface. A
 * non-empty table gets the file name in `arquivo` and is brought to the
 * standard layout; an empty one and the header come back as extracted.
 * The reference year the extractor stamps on its dates is a parameter.
 */
module ItauAdapter {
  import opened Wrappers
  import opened Dates
  import opened Frames
  import opened Pdf
  import opened BaseExtractor
  import CaixaAdapter
  import opened Itau

  /** `ItauAdapter.extract_statement`: fails exactly when the extractor does; the header is the extractor's. */
  function AdapterExtract(year: nat, doc: Document): (r: Result<(Frame, Header)>)
    ensures r.Err? <==> Extract(year, doc).Err?
    ensures r.Ok? ==> r.value.1 == Extract(year, doc).value.header
  {
    match ExtractStatement(year, doc)
    case Err(msg) => Err(msg)
    case Ok((f, h)) => Ok((CaixaAdapter.AdaptFrame(doc.name, f), h))
  }

  /** What the adapter leaves in column `k` of a transaction's row. */
  function Adapted(name: string, t: Txn, k: string): Value
  {
    Coerced(k, if k == "arquivo" then Str(name) else Get(ToRow(name, t), k))
  }

  /** Column `k` of row `i` of the adapted table, for a column the extractor writes. */
  lemma AdaptedCell(name: string, ts: seq<Txn>, i: nat, k: string)
    requires 0 <= i < |ts| && k in Keys
    ensures var g := CaixaAdapter.AdaptFrame(name, TxnFrame(name, ts));
      && i < |g.rows|
      && Get(g.rows[i], k) == Adapted(name, ts[i], k)
  {
    var f := TxnFrame(name, ts);
    assert f.rows[i] == ToRow(name, ts[i]);
    CaixaAdapter.AdaptGet(name, f, i, k);
  }

  /**
   * A transaction's row after the adapter: the date as a calendar day, the
   * signed amount as a number, the balance as a number or empty, and
   * `periodo` still the text of the date.
   */
  lemma AdaptedValues(name: string, t: Txn)
    ensures Adapted(name, t, "data_movimento") == Day(t.date)
    ensures Adapted(name, t, "valor") == Num(t.valor)
    ensures Adapted(name, t, "saldo") == OptNum(t.saldo)
    ensures Adapted(name, t, "periodo") == Str(t.periodo)
  {
    StrptimeStrftime(t.date);
    KeysHave();
    RowGet(name, t, "data_movimento");
    RowGet(name, t, "valor");
    RowGet(name, t, "saldo");
    RowGet(name, t, "periodo");
  }

  /** Every row after the adapter names the bank. */
  lemma AdaptedBank(name: string, t: Txn)
    ensures Adapted(name, t, "banco") == Str(BankName)
  {
    KeysHave();
    RowGet(name, t, "banco");
  }

  /** The file name, the description, the document number and the direction of a transaction's row after the adapter. */
  lemma AdaptedText(name: string, t: Txn)
    ensures Adapted(name, t, "arquivo") == Str(name)
    ensures Adapted(name, t, "historico") == Str(t.historico)
    ensures Adapted(name, t, "documento") == Str(t.documento)
    ensures Adapted(name, t, "tipo") == Str("credit") <==> t.credit
  {
    KeysHave();
    KeysHaveHeader();
    RowGet(name, t, "historico");
    RowGet(name, t, "documento");
    RowGet(name, t, "tipo");
  }

  /** The account and branch as the header had them when the line was read, '' when not yet read. */
  lemma AdaptedAccount(name: string, t: Txn)
    ensures Adapted(name, t, "conta") == Str(t.header.conta.GetOr(""))
    ensures Adapted(name, t, "agencia") == Str(t.header.agencia.GetOr(""))
  {
    KeysHave();
    KeysHaveHeader();
    RowGet(name, t, "conta");
    RowGet(name, t, "agencia");
  }

  lemma KeysHaveHeader()
    ensures "historico" in Keys && "documento" in Keys && "conta" in Keys && "agencia" in Keys
  {
    assert Keys[2] == "historico" && Keys[3] == "documento" && Keys[7] == "conta" && Keys[8] == "agencia";
  }

  /**
   * After the adapter a document without transactions gives its empty
   * table unchanged; otherwise there is one row per transaction, every
   * standard column is present, and each row holds that transaction as
   * `Adapted` describes, its amount having the sign of its direction and
   * its `periodo` the date it was read with.
   */
  lemma AdapterRows(year: nat, doc: Document)
    requires AdapterExtract(year, doc).Ok?
    ensures var ts := Extract(year, doc).value.txns; var g := AdapterExtract(year, doc).value.0;
      && (|ts| == 0 ==> g == TxnFrame(doc.name, ts) && |g.rows| == 0)
      && (|ts| > 0 ==>
        && |g.rows| == |ts|
        && (forall c | c in StandardColumns :: c in g.columns)
        && forall i, k | 0 <= i < |ts| && k in Keys ::
          && Get(g.rows[i], k) == Adapted(doc.name, ts[i], k)
          && Sound(ts[i]))
  {
    var ts := Extract(year, doc).value.txns;
    var f := TxnFrame(doc.name, ts);
    assert AdapterExtract(year, doc).value.0 == CaixaAdapter.AdaptFrame(doc.name, f);
    if |ts| > 0 {
      PagesSound(year, doc.pages.value);
      forall i, k | 0 <= i < |ts| && k in Keys
        ensures Get(CaixaAdapter.AdaptFrame(doc.name, f).rows[i], k) == Adapted(doc.name, ts[i], k) && Sound(ts[i])
      {
        assert ts[i] in ts;
        AdaptedCell(doc.name, ts, i, k);
      }
    }
  }

  /** The adapter's steps in order: extract, then for a non-empty table name the file and standardise. */
  method AdapterExtractStatement(year: nat, doc: Document) returns (r: Result<(Frame, Header)>)
    ensures r == AdapterExtract(year, doc)
  {
    var e := RunExtractStatement(year, doc);
    if e.Err? {
      return Err(e.msg);
    }
    var (f, h) := e.value;
    if !IsEmpty(f) {
      f := SetColumn(f, "arquivo", Str(doc.name));
      f := StandardizeOutput(f);
    }
    r := Ok((f, h));
  }
}
