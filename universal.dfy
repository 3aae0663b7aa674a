/**
 * `UniversalExtractor`: every PDF of the input folder is classified, handed
 * to the extractor the factory picks for its bank, and recorded in a
 * processing summary as `sucesso`, `sem_dados` or `erro`; the tables that
 * came back non-empty are tagged with the bank, concatenated and sorted.
 * `generate_report` then counts files, successes and transactions, overall
 * and per bank, and `save_results` names one sheet per bank.
 */
module Universal {
  import opened Wrappers
  import opened Text
  import opened Frames
  import opened Pdf
  import opened BaseExtractor
  import opened BankDetector
  import opened Factory

  /** A PDF of the input folder: its file name and its content. */
  datatype PdfFile = PdfFile(name: string, doc: Document)

  /**
   * `extractor.extract_statement()` of the extractor the factory built for a
   * file: the table, or the message of the exception it raised.
   */
  type Run = (Strategy, PdfFile) -> Result<Frame>

  /**
   * What the loop works with: the pattern table of the bank detector, its
   * regular-expression search, the bank table lookup and the extractors.
   * `Default` fills in the detector's own tables.
   */
  datatype Env = Env(table: seq<(Bank, seq<string>)>, search: Search, info: Bank -> BankDetector.Info, run: Run)

  function Default(search: Search, run: Run): Env
  {
    Env(BankPatterns, search, GetBankInfo, run)
  }

  /** The pattern table is one the detector accepts, and every table an extractor returns is a well-formed frame. */
  ghost predicate Sound(env: Env)
  {
    && Candidates(env.table)
    && forall s, f :: env.run(s, f).Ok? ==> WellFormed(env.run(s, f).value)
  }

  /** The `status` of a file's summary entry, with the fields that go with it. */
  datatype Status = Sucesso(transacoes: nat, resumo: Summary) | SemDados | Erro(erro: string)

  datatype Entry = Entry(banco: string, status: Status)

  /** `processing_summary`, a dict keyed by file name, in insertion order. */
  type Summaries = seq<(string, Entry)>

  /** `d[k] = e`: an existing key keeps its place and takes the new entry; a new key goes last. */
  function Put(d: Summaries, k: string, e: Entry): (r: Summaries)
    ensures (forall i | 0 <= i < |d| :: d[i].0 != k) ==> r == d + [(k, e)]
    decreases |d|
  {
    if |d| == 0 then [(k, e)]
    else if d[0].0 == k then [(k, e)] + d[1..]
    else [d[0]] + Put(d[1..], k, e)
  }

  /** An existing key keeps the place of its first occurrence and takes the new entry. */
  lemma {:induction false} PutExisting(d: Summaries, k: string, e: Entry, j: nat)
    requires j < |d| && d[j].0 == k && forall i | 0 <= i < j :: d[i].0 != k
    ensures Put(d, k, e) == d[j := (k, e)]
    decreases |d|
  {
    if j > 0 {
      PutExisting(d[1..], k, e, j - 1);
      assert d[j := (k, e)] == [d[0]] + d[1..][j - 1 := (k, e)];
    }
  }

  /** The rows of `f` with two more columns holding the same value on every row. */
  function Tag(df: Frame, info: BankDetector.Info): (g: Frame)
    requires WellFormed(df)
    ensures WellFormed(g) && |g.rows| == |df.rows|
    ensures "banco_detectado" in g.columns && "codigo_banco" in g.columns
    ensures forall i | 0 <= i < |g.rows| :: g.rows[i]["banco_detectado"] == Str(info.name) && g.rows[i]["codigo_banco"] == Str(info.code)
  {
    SetColumn(SetColumn(df, "banco_detectado", Str(info.name)), "codigo_banco", Str(info.code))
  }

  /**
   * One turn of the loop of `process_all_pdfs`: the file's summary entry and
   * the tagged table it adds to the consolidation, if any. The table is
   * added before `get_summary` runs, so a summary that raises leaves an
   * `erro` entry behind a table that is kept.
   */
  function FileOutcome(f: PdfFile, env: Env): (r: (Entry, Option<Frame>))
    requires Sound(env)
    ensures Good(r)
  {
    var bank := DetectWith(env.table, f.doc, env.search);
    var info := env.info(bank);
    match env.run(CreateExtractor(bank), f)
    case Err(e) => (Entry(info.name, Erro(e)), None)
    case Ok(df) =>
      if IsEmpty(df) then (Entry(info.name, SemDados), None)
      else
        var tagged := Tag(df, info);
        match GetSummary(tagged)
        case Err(e) => (Entry(info.name, Erro(e)), Some(tagged))
        case Ok(s) => (Entry(info.name, Sucesso(|tagged.rows|, s)), Some(tagged))
  }

  /** What one file gives: its summary entry and the table it adds, if any. */
  type Outcome = (Entry, Option<Frame>)

  /** A kept table is well formed and not empty, and unless the summary raised the entry counts its rows. */
  ghost predicate Good(o: Outcome)
  {
    && (o.1.Some? ==> WellFormed(o.1.value) && !IsEmpty(o.1.value))
    && (!(o.0.status.Erro? && o.1.Some?) ==> Counted(o))
  }

  /** The entry and the table of a file, from the bank detected and what its extractor returned. */
  lemma FileOutcomeSpec(f: PdfFile, env: Env)
    requires Sound(env)
    ensures var r := FileOutcome(f, env);
      var res := env.run(CreateExtractor(DetectWith(env.table, f.doc, env.search)), f);
      && r.0.banco == env.info(DetectWith(env.table, f.doc, env.search)).name
      && (r.0.status.SemDados? <==> res.Ok? && IsEmpty(res.value))
      && (r.0.status.Sucesso? ==> r.1.Some? && r.0.status.transacoes == |r.1.value.rows| > 0)
      && (r.1.Some? <==> res.Ok? && !IsEmpty(res.value))
      && (r.1.Some? ==> |r.1.value.rows| == |res.value.rows|)
      && (res.Err? ==> r.0.status == Erro(res.msg))
  {
    var bank := DetectWith(env.table, f.doc, env.search);
    var info := env.info(bank);
    match env.run(CreateExtractor(bank), f)
    case Err(e) =>
      assert FileOutcome(f, env) == (Entry(info.name, Erro(e)), None);
    case Ok(df) =>
      if !IsEmpty(df) {
        var tagged := Tag(df, info);
        assert |tagged.rows| == |df.rows|;
      }
  }

  /** The outcome of every file, each computed from that file alone. */
  function Outcomes(files: seq<PdfFile>, env: Env): (os: seq<Outcome>)
    requires Sound(env)
    ensures |os| == |files| && forall i | 0 <= i < |files| :: os[i] == FileOutcome(files[i], env)
  {
    seq(|files|, i requires 0 <= i < |files| => FileOutcome(files[i], env))
  }

  function Names(files: seq<PdfFile>): (ns: seq<string>)
    ensures |ns| == |files| && forall i | 0 <= i < |files| :: ns[i] == files[i].name
  {
    seq(|files|, i requires 0 <= i < |files| => files[i].name)
  }

  /** The summary dict after one `Put` per file, in folder order. */
  function PutAll(names: seq<string>, os: seq<Outcome>): (d: Summaries)
    requires |names| == |os|
  {
    if |os| == 0 then []
    else Put(PutAll(names[..|os| - 1], os[..|os| - 1]), names[|os| - 1], os[|os| - 1].0)
  }

  /** `all_transactions`: the tables of the outcomes that have one, in order. */
  function Kept(os: seq<Outcome>): (ps: seq<Frame>)
    ensures |ps| <= |os|
    ensures forall t | t in ps :: exists i | 0 <= i < |os| :: os[i].1 == Some(t)
  {
    if |os| == 0 then []
    else
      var front := Kept(os[..|os| - 1]);
      assert forall i | 0 <= i < |os| - 1 :: os[..|os| - 1][i] == os[i];
      match os[|os| - 1].1
      case None => front
      case Some(t) => front + [t]
  }

  function Entries(files: seq<PdfFile>, env: Env): Summaries
    requires Sound(env)
  {
    PutAll(Names(files), Outcomes(files, env))
  }

  function Parts(files: seq<PdfFile>, env: Env): (ps: seq<Frame>)
    requires Sound(env)
    ensures |ps| <= |files|
    ensures forall k | 0 <= k < |ps| :: WellFormed(ps[k]) && !IsEmpty(ps[k])
  {
    var os := Outcomes(files, env);
    var ps := Kept(os);
    forall k | 0 <= k < |ps| ensures WellFormed(ps[k]) && !IsEmpty(ps[k]) {
      assert ps[k] in ps;
      var i :| 0 <= i < |os| && os[i].1 == Some(ps[k]);
    }
    ps
  }

  const SortKeys: seq<string> := ["arquivo", "data_movimento"]

  /** The consolidation: the parts concatenated and, when there is a movement date column, sorted by file and date. */
  function Consolidate(parts: seq<Frame>): (g: Frame)
    ensures WellFormed(g)
    ensures |g.rows| == TotalRows(parts)
    ensures "data_movimento" in g.columns ==> SortedBy(g.rows, SortKeys)
    ensures multiset(g.rows) == multiset(Concat(parts).rows)
  {
    if |parts| == 0 then EmptyFrame
    else
      var all := Concat(parts);
      if "data_movimento" in all.columns then SortBy(all, SortKeys) else all
  }

  /** `process_all_pdfs`: the consolidated table and the processing summary. */
  function ProcessAll(files: seq<PdfFile>, env: Env): (r: (Frame, Summaries))
    requires Sound(env)
    ensures |files| == 0 ==> r == (EmptyFrame, [])
    ensures |r.0.rows| == TotalRows(Parts(files, env))
  {
    if |files| == 0 then (EmptyFrame, [])
    else (Consolidate(Parts(files, env)), Entries(files, env))
  }

  /** Names are distinct, as the files of one folder are. */
  predicate DistinctNames(files: seq<PdfFile>)
  {
    forall i, j | 0 <= i < j < |files| :: files[i].name != files[j].name
  }

  /** With distinct keys, every `Put` adds its own entry at the end. */
  lemma {:induction false} PutAllDistinct(names: seq<string>, os: seq<Outcome>)
    requires |names| == |os| && forall i, j | 0 <= i < j < |names| :: names[i] != names[j]
    ensures |PutAll(names, os)| == |os|
    ensures forall i | 0 <= i < |os| :: PutAll(names, os)[i] == (names[i], os[i].0)
  {
    if |os| > 0 {
      var n := |os| - 1;
      PutAllDistinct(names[..n], os[..n]);
      var d := PutAll(names[..n], os[..n]);
      assert forall i | 0 <= i < |d| :: d[i].0 != names[n];
    }
  }

  /**
   * Every file has exactly one entry, at its own position, and that entry
   * depends on that file alone: what an earlier or later file does, raising
   * included, does not change it.
   */
  lemma OneEntryPerFile(files: seq<PdfFile>, env: Env)
    requires Sound(env) && DistinctNames(files)
    ensures |Entries(files, env)| == |files|
    ensures forall i | 0 <= i < |files| :: Entries(files, env)[i] == (files[i].name, FileOutcome(files[i], env).0)
  {
    PutAllDistinct(Names(files), Outcomes(files, env));
  }

  /** Tables collected from earlier outcomes are never dropped by a later one. */
  lemma {:induction false} KeptGrows(os: seq<Outcome>, more: seq<Outcome>)
    ensures Kept(os) <= Kept(os + more)
    decreases |more|
  {
    if |more| == 0 {
      assert os + more == os;
    } else {
      var m := more[..|more| - 1];
      assert (os + more)[..|os + more| - 1] == os + m;
      KeptGrows(os, m);
    }
  }

  /** The tables of the first files stay, in order, at the head of the consolidation input. */
  lemma PartsGrow(files: seq<PdfFile>, more: seq<PdfFile>, env: Env)
    requires Sound(env)
    ensures Parts(files, env) <= Parts(files + more, env)
  {
    var all := Outcomes(files + more, env);
    var os := Outcomes(files, env);
    forall i | 0 <= i < |files| ensures all[i] == os[i] {
      assert (files + more)[i] == files[i];
    }
    assert os == all[..|files|];
    assert all == os + all[|files|..];
    KeptGrows(os, all[|files|..]);
  }

  /** The `transacoes` a summary entry reports: the row count for `sucesso`, 0 otherwise (absent for `erro`, read with default 0). */
  function Transacoes(e: Entry): nat
  {
    if e.status.Sucesso? then e.status.transacoes else 0
  }

  /** `sum(s.get('transacoes', 0) for s in summary.values())` */
  function TotalTransacoes(d: Summaries): nat
  {
    if |d| == 0 then 0 else TotalTransacoes(d[..|d| - 1]) + Transacoes(d[|d| - 1].1)
  }

  /** The entry reports as many transactions as the table the outcome keeps. */
  predicate Counted(o: Outcome)
  {
    Transacoes(o.0) == if o.1.Some? then |o.1.value.rows| else 0
  }

  /** A file whose table was kept but whose summary raised. */
  predicate SummaryRaised(f: PdfFile, env: Env)
    requires Sound(env)
  {
    FileOutcome(f, env).0.status.Erro? && FileOutcome(f, env).1.Some?
  }

  lemma {:induction false} KeptCounted(names: seq<string>, os: seq<Outcome>)
    requires |names| == |os| && forall i, j | 0 <= i < j < |names| :: names[i] != names[j]
    requires forall i | 0 <= i < |os| :: Counted(os[i])
    ensures TotalRows(Kept(os)) == TotalTransacoes(PutAll(names, os))
  {
    if |os| > 0 {
      var n := |os| - 1;
      KeptCounted(names[..n], os[..n]);
      var d := PutAll(names[..n], os[..n]);
      assert forall i | 0 <= i < |d| :: d[i].0 != names[n] by {
        PutAllDistinct(names[..n], os[..n]);
      }
      assert PutAll(names, os) == Put(d, names[n], os[n].0);
      assert Kept(os) == Kept(os[..n]) + (if os[n].1.Some? then [os[n].1.value] else []) by {
        assert os[..n + 1] == os;
        KeptSnoc(os, n);
      }
      CountStep(Kept(os[..n]), d, names[n], os[n]);
    }
  }

  /** One more file with a fresh name adds to both counts alike. */
  lemma CountStep(ps: seq<Frame>, d: Summaries, k: string, o: Outcome)
    requires TotalRows(ps) == TotalTransacoes(d) && Counted(o)
    requires forall i | 0 <= i < |d| :: d[i].0 != k
    ensures TotalRows(ps + (if o.1.Some? then [o.1.value] else [])) == TotalTransacoes(Put(d, k, o.0))
  {
    TransacoesSnoc(d, (k, o.0));
    match o.1
    case None => assert ps + [] == ps;
    case Some(t) => TotalRowsSnoc(ps, t);
  }

  lemma PutNew(d: Summaries, k: string, e: Entry)
    requires forall i | 0 <= i < |d| :: d[i].0 != k
    ensures Put(d, k, e) == d + [(k, e)]
  {
  }

  lemma TransacoesSnoc(d: Summaries, x: (string, Entry))
    ensures TotalTransacoes(d + [x]) == TotalTransacoes(d) + Transacoes(x.1)
  {
    assert (d + [x])[..|d|] == d;
  }

  lemma TotalRowsSnoc(ps: seq<Frame>, t: Frame)
    ensures TotalRows(ps + [t]) == TotalRows(ps) + |t.rows|
  {
    assert (ps + [t])[..|ps|] == ps;
  }

  /** One more outcome adds its table, if it has one, at the end. */
  lemma KeptSnoc(os: seq<Outcome>, i: nat)
    requires i < |os|
    ensures Kept(os[..i + 1]) == Kept(os[..i]) + (if os[i].1.Some? then [os[i].1.value] else [])
  {
    assert os[..i + 1][..i] == os[..i];
  }

  lemma PutAllSnoc(names: seq<string>, os: seq<Outcome>, i: nat)
    requires |names| == |os| && i < |os|
    ensures PutAll(names[..i + 1], os[..i + 1]) == Put(PutAll(names[..i], os[..i]), names[i], os[i].0)
  {
    assert os[..i + 1][..i] == os[..i] && names[..i + 1][..i] == names[..i];
  }

  /**
   * Unless some file's summary raised after its table was kept, the
   * consolidated table has exactly as many rows as the `sucesso` entries
   * report, and none when no file succeeded.
   */
  lemma RowsMatchSuccesses(files: seq<PdfFile>, env: Env)
    requires Sound(env) && DistinctNames(files)
    requires forall i | 0 <= i < |files| :: !SummaryRaised(files[i], env)
    ensures |ProcessAll(files, env).0.rows| == TotalTransacoes(ProcessAll(files, env).1)
  {
    var os := Outcomes(files, env);
    forall i | 0 <= i < |os| ensures Counted(os[i]) {
      assert !SummaryRaised(files[i], env);
    }
    KeptCounted(Names(files), os);
  }

  // ---------------------------------------------------------------------
  // The loop of `process_all_pdfs`.

  method ProcessAllPdfs(files: seq<PdfFile>, env: Env) returns (df: Frame, summary: Summaries)
    requires Sound(env)
    ensures (df, summary) == ProcessAll(files, env)
  {
    if |files| == 0 {
      return EmptyFrame, [];
    }
    ghost var os := Outcomes(files, env);
    ghost var names := Names(files);
    var parts: seq<Frame> := [];
    summary := [];
    var i := 0;
    while i < |files|
      invariant 0 <= i <= |files|
      invariant parts == Kept(os[..i])
      invariant summary == PutAll(names[..i], os[..i])
    {
      KeptSnoc(os, i);
      PutAllSnoc(names, os, i);
      var outcome := ProcessFile(files[i], env);
      assert outcome == os[i];
      summary := Put(summary, files[i].name, outcome.0);
      if outcome.1.Some? {
        parts := parts + [outcome.1.value];
      }
      i := i + 1;
    }
    assert os[..i] == os && names[..i] == names;
    df := Consolidate(parts);
  }

  /** One file: detect, build the extractor, extract, tag and summarise. */
  method ProcessFile(f: PdfFile, env: Env) returns (r: (Entry, Option<Frame>))
    requires Sound(env)
    ensures r == FileOutcome(f, env)
  {
    var bank := ScanBanks(env.table, f.doc, env.search);
    var info := env.info(bank);
    var extractor := CreateExtractor(bank);
    var result := env.run(extractor, f);
    if result.Err? {
      return (Entry(info.name, Erro(result.msg)), None);
    }
    var df := result.value;
    if IsEmpty(df) {
      return (Entry(info.name, SemDados), None);
    }
    var tagged := Tag(df, info);
    var s := GetSummary(tagged);
    if s.Err? {
      return (Entry(info.name, Erro(s.msg)), Some(tagged));
    }
    r := (Entry(info.name, Sucesso(|tagged.rows|, s.value)), Some(tagged));
  }

  // ---------------------------------------------------------------------
  // `generate_report`.

  datatype BankStats = BankStats(arquivos: nat, transacoes: nat)

  /** The overall counters and the per-bank figures, banks in order of first appearance. */
  datatype Report = Report(files: nat, successes: nat, errors: int, transactions: nat, banks: seq<(string, BankStats)>)

  function Successes(d: Summaries): (n: nat)
    ensures n <= |d|
  {
    if |d| == 0 then 0 else Successes(d[..|d| - 1]) + (if d[|d| - 1].1.status.Sucesso? then 1 else 0)
  }

  /** `banks[banco]['arquivos'] += 1` and `banks[banco]['transacoes'] += n`, creating the entry at zero first. */
  function Bump(banks: seq<(string, BankStats)>, banco: string, n: nat): (r: seq<(string, BankStats)>)
    ensures FilesIn(r) == FilesIn(banks) + 1
    ensures TransactionsIn(r) == TransactionsIn(banks) + n
    decreases |banks|
  {
    if |banks| == 0 then [(banco, BankStats(1, n))]
    else if banks[0].0 == banco then
      BumpHead(banks, n);
      [(banco, BankStats(banks[0].1.arquivos + 1, banks[0].1.transacoes + n))] + banks[1..]
    else
      var rest := Bump(banks[1..], banco, n);
      FirstSplit([banks[0]] + rest);
      FirstSplit(banks);
      [banks[0]] + rest
  }

  /** The file counts of the banks, summed. */
  function FilesIn(banks: seq<(string, BankStats)>): nat
  {
    if |banks| == 0 then 0 else banks[0].1.arquivos + FilesIn(banks[1..])
  }

  function TransactionsIn(banks: seq<(string, BankStats)>): nat
  {
    if |banks| == 0 then 0 else banks[0].1.transacoes + TransactionsIn(banks[1..])
  }

  lemma FirstSplit(banks: seq<(string, BankStats)>)
    requires |banks| > 0
    ensures FilesIn(banks) == banks[0].1.arquivos + FilesIn(banks[1..])
    ensures TransactionsIn(banks) == banks[0].1.transacoes + TransactionsIn(banks[1..])
  {
  }

  lemma BumpHead(banks: seq<(string, BankStats)>, n: nat)
    requires |banks| > 0
    ensures FilesIn([(banks[0].0, BankStats(banks[0].1.arquivos + 1, banks[0].1.transacoes + n))] + banks[1..]) == FilesIn(banks) + 1
    ensures TransactionsIn([(banks[0].0, BankStats(banks[0].1.arquivos + 1, banks[0].1.transacoes + n))] + banks[1..]) == TransactionsIn(banks) + n
  {
    var b := [(banks[0].0, BankStats(banks[0].1.arquivos + 1, banks[0].1.transacoes + n))] + banks[1..];
    assert b[1..] == banks[1..];
  }

  /** The per-bank figures after the first entries of the summary. */
  function BanksOf(d: Summaries): seq<(string, BankStats)>
  {
    if |d| == 0 then []
    else
      var e := d[|d| - 1].1;
      Bump(BanksOf(d[..|d| - 1]), e.banco, Transacoes(e))
  }

  /** `generate_report`: `sem_dados` counts among the errors, since errors are files minus successes. */
  function GenerateReportOf(d: Summaries): (r: Report)
    ensures r.files == |d| && r.successes + r.errors == r.files && r.errors >= 0
  {
    Report(|d|, Successes(d), |d| - Successes(d), TotalTransacoes(d), BanksOf(d))
  }

  /** Summed over banks, the files and transactions are the report's totals. */
  lemma {:induction false} BanksAddUp(d: Summaries)
    ensures FilesIn(GenerateReportOf(d).banks) == GenerateReportOf(d).files
    ensures TransactionsIn(GenerateReportOf(d).banks) == GenerateReportOf(d).transactions
  {
    BanksOfCounts(d);
  }

  lemma {:induction false} BanksOfCounts(d: Summaries)
    ensures FilesIn(BanksOf(d)) == |d|
    ensures TransactionsIn(BanksOf(d)) == TotalTransacoes(d)
  {
    if |d| > 0 {
      BanksOfCounts(d[..|d| - 1]);
    }
  }

  /** The loop of `generate_report` over the summary's values. */
  method GenerateReport(d: Summaries) returns (r: Report)
    ensures r == GenerateReportOf(d)
  {
    var successful := 0;
    var total := 0;
    var banks: seq<(string, BankStats)> := [];
    var i := 0;
    while i < |d|
      invariant 0 <= i <= |d|
      invariant successful == Successes(d[..i])
      invariant total == TotalTransacoes(d[..i])
      invariant banks == BanksOf(d[..i])
    {
      assert d[..i + 1][..i] == d[..i];
      var e := d[i].1;
      if e.status.Sucesso? {
        successful := successful + 1;
      }
      total := total + Transacoes(e);
      banks := Bump(banks, e.banco, Transacoes(e));
      i := i + 1;
    }
    assert d[..i] == d;
    r := Report(|d|, successful, |d| - successful, total, banks);
  }

  // ---------------------------------------------------------------------
  // The sheet name of a bank in `save_results`.

  predicate SheetChar(c: char)
  {
    IsAlnum(c) || c == '_'
  }

  /** `replace(' ', '_')`, `replace('/', '_')` and `replace('\\', '_')` in turn. */
  function Underscores(s: string): (r: string)
    ensures |r| == |s|
    ensures forall i | 0 <= i < |s| :: r[i] == if s[i] == ' ' || s[i] == '/' || s[i] == '\\' then '_' else s[i]
  {
    if |s| == 0 then "" else [if s[0] == ' ' || s[0] == '/' || s[0] == '\\' then '_' else s[0]] + Underscores(s[1..])
  }

  /** The first `n` characters, `s[:n]`. */
  function Prefix(s: string, n: nat): (r: string)
    ensures |r| <= n && r <= s
    ensures |s| <= n ==> r == s
  {
    if |s| <= n then s else s[..n]
  }

  /** The sheet name: separators become `_`, other characters that are neither alphanumeric nor `_` are dropped, and at most 31 remain. */
  function SheetName(banco: string): (r: string)
    ensures |r| <= 31
    ensures forall c | c in r :: SheetChar(c)
    ensures r <= KeepIf(Underscores(banco), SheetChar)
  {
    Prefix(KeepIf(Underscores(banco), SheetChar), 31)
  }

  /** A valid sheet name is its own sheet name, so sanitising twice changes nothing. */
  lemma SheetNameIdempotent(banco: string)
    ensures SheetName(SheetName(banco)) == SheetName(banco)
  {
    var s := SheetName(banco);
    UnderscoresKeep(s);
    KeepAll(s);
  }

  lemma {:induction false} UnderscoresKeep(s: string)
    requires forall c | c in s :: SheetChar(c)
    ensures Underscores(s) == s
  {
    if |s| > 0 {
      assert s[0] in s;
      assert forall c | c in s[1..] :: c in s;
      UnderscoresKeep(s[1..]);
    }
  }

  lemma {:induction false} KeepAll(s: string)
    requires forall c | c in s :: SheetChar(c)
    ensures KeepIf(s, SheetChar) == s
  {
    if |s| > 0 {
      assert s[0] in s;
      assert forall c | c in s[1..] :: c in s;
      KeepAll(s[1..]);
    }
  }

  /** A name made only of letters and digits, and short enough, is kept as it is. */
  lemma {:induction false} PlainNameKept(banco: string)
    requires |banco| <= 31 && forall c | c in banco :: IsAlnum(c)
    ensures SheetName(banco) == banco
  {
    UnderscoresKeep(banco);
    KeepAll(banco);
  }
}
