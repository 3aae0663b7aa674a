/**
 * The statement data model: a header of optional account fields, and
 * transactions that turn into dictionaries and then into a table.
 */
module Statement {
  import opened Wrappers
  import opened Dates
  import opened Frames

  /** `BankHeader`: every field is optional and starts out missing. */
  datatype Header = Header(
    bankName: Option<string>,
    accountHolder: Option<string>,
    accountNumber: Option<string>,
    agency: Option<string>,
    periodStart: Option<Date>,
    periodEnd: Option<Date>,
    initialBalance: Option<int>,
    finalBalance: Option<int>)

  const DefaultHeader: Header := Header(None, None, None, None, None, None, None, None)

  /** `BankTransaction`; amounts in cents, `kind` is `'debit'`, `'credit'` or missing. */
  datatype Transaction = Transaction(
    movementDate: Date,
    balanceDate: Option<Date>,
    description: string,
    document: Option<string>,
    value: int,
    balance: Option<int>,
    kind: Option<string>)

  /** Both dates can be printed. */
  predicate Printable(t: Transaction)
  {
    Valid(t.movementDate) && (t.balanceDate.Some? ==> Valid(t.balanceDate.value))
  }

  /** The keys of `to_dict`, in order. */
  const DictKeys: seq<string> := ["dt_movimento", "dt_balancete", "historico", "documento", "valor", "saldo", "tipo"]

  const DictKeySet: set<string> := {"dt_movimento", "dt_balancete", "historico", "documento", "valor", "saldo", "tipo"}

  /** The value `to_dict` stores under key `k`. */
  function Field(t: Transaction, k: string): Value
    requires Printable(t)
  {
    if k == "dt_movimento" then Str(Strftime(t.movementDate))
    else if k == "dt_balancete" then Str(if t.balanceDate.Some? then Strftime(t.balanceDate.value) else "")
    else if k == "historico" then Str(t.description)
    else if k == "documento" then Str(if t.document.Some? && t.document.value != "" then t.document.value else "")
    else if k == "valor" then Num(t.value)
    else if k == "saldo" then OptNum(t.balance)
    else OptStr(t.kind)
  }

  /** `to_dict` has exactly the seven keys. */
  lemma DictShape(t: Transaction)
    requires Printable(t)
    ensures Shaped(ToDict(t), DictKeys)
  {
    var r := ToDict(t);
    assert r.Keys == DictKeySet;
    forall c ensures c in r <==> c in DictKeys {
      assert c in DictKeys <==> c in DictKeySet;
    }
  }

  /**
   * `BankTransaction.to_dict`: a cell for each of the seven keys, the
   * movement date printed as dd/mm/yyyy, the balance date and the document
   * as `''` when missing.
   */
  function ToDict(t: Transaction): (r: Row)
    requires Printable(t)
    ensures Get(r, "dt_movimento").Str? && Strptime(Get(r, "dt_movimento").s) == Some(t.movementDate)
    ensures Get(r, "dt_balancete") == Str("") <==> t.balanceDate.None?
    ensures t.balanceDate.Some? ==> Get(r, "dt_balancete").Str? && Strptime(Get(r, "dt_balancete").s) == t.balanceDate
    ensures Get(r, "historico") == Str(t.description)
    ensures t.document.None? ==> Get(r, "documento") == Str("")
    ensures t.document.Some? && t.document.value != "" ==> Get(r, "documento") == Str(t.document.value)
    ensures Get(r, "valor") == Num(t.value)
    ensures Get(r, "saldo") == OptNum(t.balance) && Get(r, "tipo") == OptStr(t.kind)
  {
    ReadBack(t);
    map k | k in DictKeySet :: Field(t, k)
  }

  lemma ReadBack(t: Transaction)
    requires Printable(t)
    ensures Strptime(Strftime(t.movementDate)) == Some(t.movementDate)
    ensures t.balanceDate.Some? ==> Strptime(Strftime(t.balanceDate.value)) == t.balanceDate && Strftime(t.balanceDate.value) != ""
  {
    StrptimeStrftime(t.movementDate);
    if t.balanceDate.Some? {
      StrptimeStrftime(t.balanceDate.value);
    }
  }

  datatype BankStatement = BankStatement(header: Header, transactions: seq<Transaction>)

  function Rows(ts: seq<Transaction>): (rs: seq<Row>)
    requires forall i | 0 <= i < |ts| :: Printable(ts[i])
    ensures |rs| == |ts| && forall i | 0 <= i < |ts| :: rs[i] == ToDict(ts[i])
  {
    seq(|ts|, i requires 0 <= i < |ts| => ToDict(ts[i]))
  }

  /**
   * `BankStatement.to_dataframe`: one row per transaction, in order, each
   * the dictionary of its transaction; the columns are the seven keys
   * unless there are no transactions at all.
   */
  function ToDataFrame(st: BankStatement): (f: Frame)
    requires forall i | 0 <= i < |st.transactions| :: Printable(st.transactions[i])
    ensures WellFormed(f) && |f.rows| == |st.transactions|
    ensures f.columns == if |st.transactions| == 0 then [] else DictKeys
    ensures forall i | 0 <= i < |f.rows| :: f.rows[i] == ToDict(st.transactions[i])
  {
    KeysDistinct();
    var rs := Rows(st.transactions);
    assert forall i | 0 <= i < |rs| :: Shaped(rs[i], DictKeys) by {
      forall i | 0 <= i < |rs| ensures Shaped(rs[i], DictKeys) {
        DictShape(st.transactions[i]);
      }
    }
    Frame(if |st.transactions| == 0 then [] else DictKeys, rs)
  }

  lemma KeysDistinct()
    ensures Distinct(DictKeys)
  {
  }
}
