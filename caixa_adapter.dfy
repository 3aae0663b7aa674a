/**
 * `CaixaAdapter`: the GovConta extractor behind the common interface. A
 * non-empty table gets the file name in `arquivo` and is brought to the
 * standard layout; an empty one and the header come back as extracted.
 */
module CaixaAdapter {
  import opened Wrappers
  import Text
  import opened Dates
  import opened Frames
  import opened Pdf
  import opened BaseExtractor
  import Caixa
  import opened CaixaGovConta

  /** The extractor's table after the adapter. */
  function AdaptFrame(name: string, f: Frame): (g: Frame)
    requires WellFormed(f)
    ensures WellFormed(g)
    ensures IsEmpty(f) ==> g == f
    ensures !IsEmpty(f) ==> |g.rows| == |f.rows| && forall c | c in StandardColumns :: c in g.columns
  {
    if IsEmpty(f) then f
    else
      var g := Standardize(SetColumn(f, "arquivo", Str(name)));
      assert forall c | c in StandardColumns :: c in Layout(SetColumn(f, "arquivo", Str(name)).columns);
      g
  }

  /** `CaixaAdapter.extract_statement`: fails exactly when the extractor does; the header is the extractor's. */
  function AdapterExtract(doc: Document): (r: Result<(Frame, Header)>)
    ensures r.Err? <==> Extract(doc).Err?
    ensures r.Ok? ==> r.value.1 == Extract(doc).value.header
  {
    match ExtractStatement(doc)
    case Err(msg) => Err(msg)
    case Ok((f, h)) => Ok((AdaptFrame(doc.name, f), h))
  }

  /** A column of a non-empty table after the adapter: the file name in `arquivo`, otherwise its cell, coerced. */
  lemma AdaptGet(name: string, f: Frame, i: nat, k: string)
    requires WellFormed(f) && !IsEmpty(f) && i < |f.rows| && k in f.columns
    ensures var g := AdaptFrame(name, f);
      && i < |g.rows|
      && Get(g.rows[i], k) == Coerced(k, if k == "arquivo" then Str(name) else Get(f.rows[i], k))
  {
    var s := SetColumn(f, "arquivo", Str(name));
    var g := Standardize(s);
    assert k in s.columns;
    assert k in g.columns;
    assert Get(g.rows[i], k) == Coerced(k, Get(s.rows[i], k));
    assert s.rows[i] == f.rows[i]["arquivo" := Str(name)];
  }

  /** A standard column missing from a non-empty table is present and empty after the adapter. */
  lemma AdaptMissing(name: string, f: Frame, i: nat, k: string)
    requires WellFormed(f) && !IsEmpty(f) && i < |f.rows| && k in StandardColumns && k != "arquivo"
    requires k !in f.rows[i]
    ensures var g := AdaptFrame(name, f);
      && i < |g.rows|
      && k in g.columns && Get(g.rows[i], k) == Null
  {
    var s := SetColumn(f, "arquivo", Str(name));
    var g := Standardize(s);
    assert s.rows[i] == f.rows[i]["arquivo" := Str(name)];
    assert k !in s.rows[i];
    assert Get(g.rows[i], k) == if k in g.columns then Coerced(k, Null) else Null;
  }

  /** What the adapter leaves in column `k` of a transaction's row. */
  function Adapted(name: string, t: Txn, k: string): Value
  {
    Coerced(k, if k == "arquivo" then Str(name) else Get(ToRow(name, t), k))
  }

  /** Column `k` of row `i` of the adapted table, for a column the extractor writes. */
  lemma AdaptedCell(name: string, ts: seq<Txn>, i: nat, k: string)
    requires 0 <= i < |ts| && k in Keys
    ensures var g := AdaptFrame(name, TxnFrame(name, ts));
      && i < |g.rows|
      && Get(g.rows[i], k) == Adapted(name, ts[i], k)
  {
    var f := TxnFrame(name, ts);
    assert f.rows[i] == ToRow(name, ts[i]);
    AdaptGet(name, f, i, k);
  }

  /**
   * A transaction's row after the adapter: the file name, the date as a
   * calendar day, the description and document number, the signed amount
   * and the balance as numbers, the direction, the bank and the GovConta
   * number as read.
   */
  lemma AdaptedValues(name: string, t: Txn)
    ensures Adapted(name, t, "arquivo") == Str(name)
    ensures Adapted(name, t, "data_movimento") == Day(t.line.date)
    ensures Adapted(name, t, "historico") == Str(t.line.historico)
    ensures Adapted(name, t, "documento") == Str(t.line.documento)
    ensures Adapted(name, t, "valor") == Num(t.line.valor)
    ensures Adapted(name, t, "saldo") == Num(t.line.saldo)
    ensures Adapted(name, t, "tipo") == Str("credit") <==> t.line.credit
    ensures Adapted(name, t, "banco") == Str(Caixa.BankName)
    ensures Adapted(name, t, "govconta") == Str(t.header.govconta.GetOr(""))
  {
    StrptimeStrftime(t.line.date);
    TxnCells(name, t);
    HeaderCells(name, t);
  }

  /** The standard columns the extractor does not write, `conta` and `agencia`, are present and empty after the adapter. */
  lemma AdaptedAccount(name: string, ts: seq<Txn>, i: nat)
    requires 0 <= i < |ts|
    ensures var g := AdaptFrame(name, TxnFrame(name, ts));
      && i < |g.rows|
      && "conta" in g.columns && Get(g.rows[i], "conta") == Null
      && "agencia" in g.columns && Get(g.rows[i], "agencia") == Null
  {
    var f := TxnFrame(name, ts);
    var r := ToRow(name, ts[i]);
    assert f.rows[i] == r;
    KeysLackAccount();
    StandardConta();
    assert "conta" !in r && "agencia" !in r;
    AdaptMissing(name, f, i, "conta");
    AdaptMissing(name, f, i, "agencia");
  }

  lemma StandardConta()
    ensures "conta" in StandardColumns && "agencia" in StandardColumns
  {
    assert StandardColumns[7] == "conta" && StandardColumns[8] == "agencia";
  }

  /**
   * After the adapter a document without transactions gives its empty
   * table unchanged; otherwise there is one row per transaction, every
   * standard column is present, and each row holds that transaction as
   * `Adapted` describes, its amount having the sign of its direction and
   * its description never a balance update.
   */
  lemma AdapterRows(doc: Document)
    requires AdapterExtract(doc).Ok?
    ensures var ts := Extract(doc).value.txns; var g := AdapterExtract(doc).value.0;
      && (|ts| == 0 ==> g == TxnFrame(doc.name, ts) && |g.rows| == 0)
      && (|ts| > 0 ==>
        && |g.rows| == |ts|
        && (forall c | c in StandardColumns :: c in g.columns)
        && forall i, k | 0 <= i < |ts| && k in Keys ::
          && Get(g.rows[i], k) == Adapted(doc.name, ts[i], k)
          && Sound(ts[i]))
  {
    var ts := Extract(doc).value.txns;
    var f := TxnFrame(doc.name, ts);
    assert AdapterExtract(doc).value.0 == AdaptFrame(doc.name, f);
    if |ts| > 0 {
      TxnsSound(doc);
      forall i, k | 0 <= i < |ts| && k in Keys
        ensures Get(AdaptFrame(doc.name, f).rows[i], k) == Adapted(doc.name, ts[i], k) && Sound(ts[i])
      {
        assert ts[i] in ts;
        AdaptedCell(doc.name, ts, i, k);
      }
    }
  }

  /** The adapter's steps in order: extract, then for a non-empty table name the file and standardise. */
  method AdapterExtractStatement(doc: Document) returns (r: Result<(Frame, Header)>)
    ensures r == AdapterExtract(doc)
  {
    var e := RunExtractStatement(doc);
    if e.Err? {
      return Err(e.msg);
    }
    var (f, h) := e.value;
    if !IsEmpty(f) {
      f := SetColumn(f, "arquivo", Str(doc.name));
      f := StandardizeOutput(f);
    }
    r := Ok((f, h));
  }
}
