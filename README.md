# Bank-statement extraction, modelled in Dafny

This project models the core of a Python tool that turns Brazilian bank-statement PDFs into
transaction tables (`data_movimento`, `historico`, `documento`, `valor`, `saldo`, `tipo`,
`conta`, `agencia`, `banco`, `arquivo`). Once the PDF library has produced the text and the
tables of the pages, everything the tool does is deterministic string and record work, and
that is what the model covers:

- recognising the bank from the first pages and dispatching to an extractor;
- the per-bank line and table scanners, with their carry-forward dates, multi-line blocks,
  Brazilian amounts (`1.234,56`) and credit/debit rules;
- the best-of-N generic extractors, which keep the first strategy with the most rows;
- the normalisation to the ten standard columns, the adapters and the summaries;
- the batch run over a folder, with its per-file outcomes and its report.
- the standalone per-bank scripts of `scripts_individuais/`, and the earlier table-first
  extractor kept in `obsoleto/improved_extractor.py`.

A PDF is a `Document`: a name and, when it opens, a sequence of pages, each with a text
(missing, present, or raising when read) and tables of optional cells. A pandas `DataFrame`
is a `Frame` value: ordered column names and rows that map column names to cells. Amounts
are integer cents. Regular expressions of the source are written as small expression trees
and run by a backtracking matcher with Python's priorities.

## Model

| member | source | states |
|---|---|---|
| BankDetector.SampleOf | src/core/bank_detector.py:279-283 | the sample is missing exactly when some sampled page's text raises |
| BankDetector.Score | src/core/bank_detector.py:286-293 | a bank's score never exceeds its number of patterns |
| BankDetector.FirstHit | src/core/bank_detector.py:285-298 | a bank other than `UNKNOWN` is returned only if it has a hit and every earlier bank has none; `UNKNOWN` is returned exactly when no bank has a hit |
| BankDetector.PatternsCandidates | src/core/bank_detector.py:45-271 | no entry of the pattern table is for `UNKNOWN`, so a returned bank always had a hit |
| BankDetector.DetectBank | src/core/bank_detector.py:273-302 | the method returns the bank that the first-match definition over the class's table gives |
| BankDetector.ScanBanks | src/core/bank_detector.py:277-302 | the sampling loop and the early-return scanning loop compute the first-match result, and an exception yields `UNKNOWN` |
| BankDetector.TakeSample | src/core/bank_detector.py:279-283 | the sampling loop builds exactly the sample of the first three pages |
| BankDetector.CountHits | src/core/bank_detector.py:286-293 | the scoring loop computes the score |
| BankDetector.ScoreSkips | src/core/bank_detector.py:288-293 | inserting a pattern that raises or finds nothing anywhere leaves the score unchanged |
| BankDetector.SampleSkips | src/core/bank_detector.py:281-283 | inserting a page without text leaves the sample unchanged |
| BankDetector.SampleWindow | src/core/bank_detector.py:280 | pages after the third never change the sample |
| BankDetector.GetBankInfo | src/core/bank_detector.py:304-344 | every code has three digits; the code is `000` and the extractor `generic` exactly for `UNKNOWN` |
| BankDetector.InfoTotal | src/core/bank_detector.py:307-344 | every bank has its own entry, so the fallback is never used |
| Factory.CreateExtractor | src/core/extractor_factory.py:14-45 | the enhanced extractor is chosen exactly for Safra, Daycoval, BV and Citi, under the bank's registered name; the smart generic one exactly for the banks with neither an adapter nor an enhanced layout; an adapter exactly for the five dedicated banks |
| Factory.DedicatedDistinct | src/core/extractor_factory.py:18-36 | two different dedicated banks never get the same adapter |
| Factory.EnhancedDistinct | src/core/extractor_factory.py:38-41 | two different enhanced banks are never given the same name |
| Universal.Put | src/core/universal_extractor.py:61-85 | assigning a summary entry under a new file name puts it last |
| Universal.PutExisting | src/core/universal_extractor.py:61-85 | assigning under an existing file name keeps that entry's place and replaces it |
| Universal.Tag | src/core/universal_extractor.py:54-55 | the tagged table keeps its rows and has `banco_detectado` and `codigo_banco` on every row, holding the detected bank's name and code |
| Universal.FileOutcome | src/core/universal_extractor.py:39-86 | a kept table is well formed and not empty, and unless `get_summary` raised after the table was added the entry reports exactly its row count |
| Universal.FileOutcomeSpec | src/core/universal_extractor.py:39-86 | a file's entry names the detected bank; it is `sem_dados` exactly when the extractor returned an empty table; a table is added exactly when the extractor returned a non-empty one, with the same rows count; a `sucesso` entry counts them; an extractor exception gives an `erro` entry with its message |
| Universal.Outcomes | src/core/universal_extractor.py:36-86 | each file's outcome is computed from that file alone |
| Universal.Names | src/core/universal_extractor.py:36-37 | the summary keys are the file names, in folder order |
| Universal.Kept | src/core/universal_extractor.py:57 | `all_transactions` holds only tables some outcome kept, and no more of them than outcomes |
| Universal.Parts | src/core/universal_extractor.py:52-57 | every collected table is well formed and non-empty |
| Universal.Consolidate | src/core/universal_extractor.py:88-96 | the consolidated table is a permutation of the concatenation and, when it has `data_movimento`, sorted by file and date |
| Universal.ProcessAll | src/core/universal_extractor.py:21-98 | with no file the result is an empty table and summary; otherwise it has as many rows as the collected tables together |
| Universal.PutAllDistinct | src/core/universal_extractor.py:36-86 | with distinct file names every file gets its own summary entry, at its own position |
| Universal.OneEntryPerFile | src/core/universal_extractor.py:36-86 | one summary entry per file, which depends on that file alone, so a failing file does not affect the others |
| Universal.KeptGrows | src/core/universal_extractor.py:57 | a later file never removes a table collected from an earlier one |
| Universal.PartsGrow | src/core/universal_extractor.py:36-57 | the tables of the first files stay, in order, at the head of the consolidation input |
| Universal.KeptCounted | src/core/universal_extractor.py:61-77 | when every entry counts its table's rows, the collected tables hold as many rows as the entries report |
| Universal.RowsMatchSuccesses | src/core/universal_extractor.py:52-98 | unless a summary raised after its table was collected, the consolidated table has exactly as many rows as the summary reports |
| Universal.ProcessAllPdfs | src/core/universal_extractor.py:21-98 | the loop computes the consolidated table and summary of the definition |
| Universal.ProcessFile | src/core/universal_extractor.py:39-86 | one turn of the loop computes that file's outcome |
| Universal.Successes | src/core/universal_extractor.py:150 | there are never more successes than files |
| Universal.Bump | src/core/universal_extractor.py:161-165 | counting a file adds one file and its transactions to the per-bank totals |
| Universal.GenerateReportOf | src/core/universal_extractor.py:143-165 | the report counts every file, successes and errors add up to the files, and the error count is never negative |
| Universal.BanksAddUp | src/core/universal_extractor.py:149-165 | summed over banks, the files and transactions equal the report's totals |
| Universal.BanksOfCounts | src/core/universal_extractor.py:159-165 | the per-bank files add up to the entries and the per-bank transactions to the summed `transacoes` |
| Universal.GenerateReport | src/core/universal_extractor.py:143-169 | the loop computes the report of the definition |
| Universal.Underscores | src/core/universal_extractor.py:119 | spaces, slashes and backslashes become `_`, and nothing else changes |
| Universal.Prefix | src/core/universal_extractor.py:120 | `[:31]` keeps a prefix of at most 31 characters, the whole string when it is short enough |
| Universal.SheetName | src/core/universal_extractor.py:119-120 | a sheet name has at most 31 characters, all alphanumeric or `_`, taken in order from the name |
| Universal.SheetNameIdempotent | src/core/universal_extractor.py:119-120 | sanitising a sheet name twice changes nothing |
| Universal.PlainNameKept | src/core/universal_extractor.py:119-120 | a short alphanumeric name is kept as it is |
| BaseExtractor.StandardDistinct | src/parsers/base_extractor.py:28-31 | the ten standard columns are distinct |
| BaseExtractor.AddMissing | src/parsers/base_extractor.py:34-36 | adding the missing standard columns keeps the rows, their cells and the existing columns in front, and appends exactly the missing ones |
| BaseExtractor.Added | src/parsers/base_extractor.py:34-36 | the appended columns are standard columns not already present, every standard column ends up present, and no column is repeated |
| BaseExtractor.AddColumn | src/parsers/base_extractor.py:35-36 | one turn adds the column at the end with null cells only when it is missing, and keeps every cell |
| BaseExtractor.AddColumns | src/parsers/base_extractor.py:34-36 | the loop adds the missing columns as the definition does |
| BaseExtractor.CoerceColumns | src/parsers/base_extractor.py:39-46 | every cell of `data_movimento`, `valor` and `saldo` is coerced, every other cell kept, and the columns stay as they were |
| BaseExtractor.StdRow | src/parsers/base_extractor.py:49 | a standardised row has a cell for exactly the chosen columns, each the coerced cell of the input |
| BaseExtractor.Standardize | src/parsers/base_extractor.py:24-51 | the standardised table has the standard columns first and then the others in order, the same number of rows, no column lost and every cell coerced |
| BaseExtractor.LayoutDistinct | src/parsers/base_extractor.py:49 | the final column order has no duplicates |
| BaseExtractor.LayoutOf | src/parsers/base_extractor.py:34-49 | after widening, the non-standard columns are still the original ones in order |
| BaseExtractor.StandardizeOutput | src/parsers/base_extractor.py:24-51 | the step-by-step method (one column added at a time, coercion, selection) gives the standardised table |
| BaseExtractor.StandardizeVia | src/parsers/base_extractor.py:34-49 | widening, coercing and then selecting the standard columns first gives the standardised rows of the input |
| BaseExtractor.SelectCoerced | src/parsers/base_extractor.py:49 | selecting the final layout from the widened, coerced table gives the standardised rows |
| BaseExtractor.Extreme | src/parsers/base_extractor.py:61-62 | `min()`/`max()` of a date column is a date of the column that no other date of it is before/after, and missing when the column has no date |
| BaseExtractor.NotAfterTotal | src/parsers/base_extractor.py:61-62 | any two dates are ordered one way or the other |
| BaseExtractor.GetSummary | src/parsers/base_extractor.py:53-68 | `{}` exactly for an empty table; `KeyError` exactly for a non-empty table with `valor` but no `tipo`; otherwise the row count, the first and last dates, the credit sum, the absolute debit sum and the last balance |
| BaseExtractor.SummaryPeriod | src/parsers/base_extractor.py:61-62 | a summary's start date exists exactly when its end date does, and is not after it |
| BaseExtractor.SumOfAppend | src/parsers/base_extractor.py:63-64 | the credit and debit sums of two stretches of rows add up |
| Statement.DictShape | src/models/bank_statement.py:26-35 | `to_dict` has exactly the seven keys |
| Statement.ToDict | src/models/bank_statement.py:26-35 | the movement date is printed so that it reads back to the same date; the balance date is `''` exactly when missing and otherwise reads back; description, document (`''` when missing), value, balance and type are stored as they are |
| Statement.ReadBack | src/models/bank_statement.py:28-29 | printing a date as dd/mm/yyyy and parsing it back gives the same date |
| Statement.Rows | src/models/bank_statement.py:44 | one dictionary per transaction, in order |
| Statement.ToDataFrame | src/models/bank_statement.py:42-44 | one row per transaction, each its dictionary; the columns are the seven keys unless there is no transaction |
| Statement.KeysDistinct | src/models/bank_statement.py:27-35 | the seven keys are distinct |
| BbFolder.ExtractFileTable | src/parsers/bb/bb_folder_extractor.py:11-173 | a file reads exactly when the single-file extractor reads it, with as many rows and the same accounts; its table is well formed, has `arquivo` and the single-file columns when it has rows, names the file on every row and keeps each amount's sign in line with its `tipo` |
| BbFolder.Outcomes | src/parsers/bb/bb_folder_extractor.py:191-195 | each file's outcome is the extraction of that file alone |
| BbFolder.OutcomesTables | src/parsers/bb/bb_folder_extractor.py:191-195 | every outcome of the folder is such a file table |
| BbFolder.GatherFrom | src/parsers/bb/bb_folder_extractor.py:188-205 | the loop keeps everything gathered earlier, and adds a table exactly when some file opened with rows |
| BbFolder.GatherParts | src/parsers/bb/bb_folder_extractor.py:194-199 | every table the loop adds is a non-empty file table |
| BbFolder.GatherAppend | src/parsers/bb/bb_folder_extractor.py:191-205 | running the loop over two stretches of files is running it over one and then the other |
| BbFolder.FailureIsolated | src/parsers/bb/bb_folder_extractor.py:194-205 | a file that raises or gives no rows changes nothing, wherever it stands in the folder |
| BbFolder.ContasLast | src/parsers/bb/bb_folder_extractor.py:199 | an account is known exactly when some file with rows lists it, and its entry is that of the last such file |
| BbFolder.AddDate | src/parsers/bb/bb_folder_extractor.py:218 | the dated table appends `data_obj` and gives every row the date read from its `data_movimento` |
| BbFolder.SortedDated | src/parsers/bb/bb_folder_extractor.py:212-219 | the table before the last drop is well formed and has `data_obj` |
| BbFolder.Merge | src/parsers/bb/bb_folder_extractor.py:211-219 | the merged table is well formed |
| BbFolder.DropUndates | src/parsers/bb/bb_folder_extractor.py:219 | dropping `data_obj` takes that cell out of every row and leaves the rest |
| BbFolder.UndateDated | src/parsers/bb/bb_folder_extractor.py:218-219 | taking `data_obj` off the dated rows gives back the rows it was added to |
| BbFolder.MergeRows | src/parsers/bb/bb_folder_extractor.py:211-219 | the merged rows are a permutation of the distinct rows of the concatenation: every row of it exactly once and nothing else, never more rows than it |
| BbFolder.MergeOrder | src/parsers/bb/bb_folder_extractor.py:217-219 | the merged rows are ordered by file name and then movement date |
| BbFolder.MergeColumns | src/parsers/bb/bb_folder_extractor.py:211-219 | the merged table has exactly the columns of the files' tables |
| BbFolder.Collected | src/parsers/bb/bb_folder_extractor.py:188-221 | the folder run gives no table exactly when no file opened with rows |
| BbFolder.ProcessAllNone | src/parsers/bb/bb_folder_extractor.py:175-221 | `process_all_pdfs` returns `None` exactly when no file of the folder opened with a row |
| BbFolder.ConcatSigned | src/parsers/bb/bb_folder_extractor.py:212 | the concatenation keeps every row's `tipo` and `valor`, so every row stays sign-consistent |
| BbFolder.MergeSigned | src/parsers/bb/bb_folder_extractor.py:211-219 | every merged row has a numeric amount whose sign agrees with its `tipo` |
| BbFolder.ReadFile | src/parsers/bb/bb_folder_extractor.py:195 | reading one file gives its outcome |
| BbFolder.MergeParts | src/parsers/bb/bb_folder_extractor.py:211-219 | the merge steps, one after the other, give the merged table |
| BbFolder.GatherSnoc | src/parsers/bb/bb_folder_extractor.py:191-205 | one more file is one more step of the loop |
| BbFolder.GatherFile | src/parsers/bb/bb_folder_extractor.py:194-205 | one turn of the loop keeps the file's table and accounts exactly when it opened with rows |
| BbFolder.ProcessAllPdfs | src/parsers/bb/bb_folder_extractor.py:175-221 | the loop and the merge compute the folder run of the definition |
| BbFolder.RowsWhere | src/parsers/bb/bb_folder_extractor.py:244 | the filtered rows are exactly those whose column holds the key |
| BbFolder.SignedSums | src/parsers/bb/bb_folder_extractor.py:245-246 | over sign-consistent rows the credit sum is never negative and the debit sum never positive |
| BbFolder.TotalsSigned | src/parsers/bb/bb_folder_extractor.py:243-260 | per file or account, the credits are never negative and the debits are the negated debit sum |
| BbFolder.FolderTotals | src/parsers/bb/bb_folder_extractor.py:242-265 | the per-file and per-account figures of the merged table have those properties |
| BbFolder.RenameSameIdentity | src/parsers/bb/bb_extractor_adapter.py:28-40 | the adapter's column mapping sends every name to itself, so renaming leaves the table as it is |
| BbFolder.StampSame | src/parsers/bb/bb_extractor_adapter.py:41 | setting `arquivo` to the file's name changes nothing, since every row already carries it |
| BbFolder.Adapt | src/parsers/bb/bb_extractor_adapter.py:19-46 | the adapter raises exactly when the extraction raises |
| BbFolder.AdapterStandardizes | src/parsers/bb/bb_extractor_adapter.py:19-46 | the adapter returns an empty table as it is and otherwise only standardises it, always with the same accounts and row count |
| BbFolder.AdapterRows | src/parsers/bb/bb_extractor_adapter.py:26-44 | a non-empty result has the standard columns first, every standard column, and the file's name on every row |
| BbFolder.AdapterExtractStatement | src/parsers/bb/bb_extractor_adapter.py:19-46 | the adapter's steps give the adapter's result |
| Bb.ContaWord | src/parsers/bb/bb_extractor.py:32-36 | the account word is the first word matching `\d+-\w+`, and there is none exactly when no word matches |
| Bb.HeaderLine | src/parsers/bb/bb_extractor.py:24-40 | a header line changes at most one field (the account and its name together), and only a line carrying that field's keyword; a `BANCO`/`001` line sets the bank to the stripped line; an account is a word of the line matching the account pattern |
| Bb.HeaderLines | src/parsers/bb/bb_extractor.py:23 | only the first fifteen lines are read |
| Bb.HeaderLineSourced | src/parsers/bb/bb_extractor.py:23-40 | every header field comes from a line that was read |
| Bb.PageHeaderSourced | src/parsers/bb/bb_extractor.py:21-40 | every field of a page header comes from one of its first fifteen lines |
| Bb.PageHeaderFirst15 | src/parsers/bb/bb_extractor.py:23 | lines after the fifteenth never change the page header |
| Bb.ReadHeader | src/parsers/bb/bb_extractor.py:21-40 | the header loop computes the page header |
| Bb.Reading | src/parsers/bb/bb_extractor.py:104-124 | a `C` flag gives a credit and anything else a debit; an unsigned number gives a non-negative credit and a non-positive debit |
| Bb.ColumnValue | src/parsers/bb/bb_extractor.py:99-129 | a value is found only in a cell that exists |
| Bb.RowValue | src/parsers/bb/bb_extractor.py:98-129 | a value needs at least six cells; it is the first one found in column 5, else in column 6 |
| Bb.RowValueSign | src/parsers/bb/bb_extractor.py:104-124 | the value's sign agrees with its C/D flag |
| Bb.ReadValue | src/parsers/bb/bb_extractor.py:98-129 | the nested search loops compute the row's value |
| Bb.ReadColumn | src/parsers/bb/bb_extractor.py:100-129 | the match loop over one cell computes that cell's value |
| Bb.Saldo | src/parsers/bb/bb_extractor.py:134-148 | a balance needs seven cells and is never negative |
| Bb.RowTxn | src/parsers/bb/bb_extractor.py:63-165 | a kept row has at least six cells, a `dd/mm/yyyy` date that parses, a non-empty description without the balance markers, a document other than `None`, the page's header, the row's value and the row's balance |
| Bb.RowTxnSign | src/parsers/bb/bb_extractor.py:93-132 | a kept row's amount is non-negative for a credit and non-positive for a debit |
| Bb.HeaderFrom | src/parsers/bb/bb_extractor.py:53-57 | the header row is the first row with a `Dt. movimento` cell, and there is none exactly when no row has one |
| Bb.TableTxns | src/parsers/bb/bb_extractor.py:48-63 | a table without two rows or without a header row gives nothing, and a table never gives as many rows as it has |
| Bb.FindHeaderRow | src/parsers/bb/bb_extractor.py:53-57 | the search loop finds the first header row |
| Bb.ReadTable | src/parsers/bb/bb_extractor.py:48-168 | the row loop computes the table's transactions |
| Bb.ReadRow | src/parsers/bb/bb_extractor.py:63-168 | one turn of the row loop computes that row's transaction |
| Bb.Headers | src/parsers/bb/bb_extractor.py:16-40 | every page gets its own header |
| Bb.AccountsLast | src/parsers/bb/bb_extractor.py:42-44 | an account is a key exactly when some page names it, and its entry is the header of the last such page |
| Bb.Extract | src/parsers/bb/bb_extractor.py:9-170 | the extraction succeeds exactly when the file opens and every page has text |
| Bb.TableAgrees | src/parsers/bb/bb_extractor.py:93-148 | every transaction of a table has a sign that agrees with its type and a non-negative balance |
| Bb.PagesAgree | src/parsers/bb/bb_extractor.py:16-168 | so does every transaction of the document |
| Bb.PagesSnoc | src/parsers/bb/bb_extractor.py:16-168 | one more page adds its transactions at the end and notes its account |
| Bb.ReadTextPage | src/parsers/bb/bb_extractor.py:16-168 | one turn of the page loop extends the transactions and accounts by that page's |
| Bb.ExtractStatement | src/parsers/bb/bb_extractor.py:9-170 | the page loop computes the extraction |
| Bb.ReadPage | src/parsers/bb/bb_extractor.py:47-168 | the table loop of one page computes the page's transactions |
| Bb.KeysDistinct | src/parsers/bb/bb_extractor.py:151-163 | the row keys are distinct |
| Bb.ToRow | src/parsers/bb/bb_extractor.py:151-163 | a row has a cell for exactly the keys |
| Bb.TxnFrame | src/parsers/bb/bb_extractor.py:170 | the table has one row per transaction, in order, and the keys as columns unless there is no transaction |
| Bb.RowGet | src/parsers/bb/bb_extractor.py:151-163 | each cell of a row is that field of its transaction |
| Bb.RowCells | src/parsers/bb/bb_extractor.py:151-163 | a row's `tipo` is `credit` exactly for a credit, its `valor` is numeric with the matching sign, and its account fields are the page header's, `''` when missing |
| Bb.TxnCells | src/parsers/bb/bb_extractor.py:151-163 | the same for any transaction whose sign agrees with its type |
| Best.BestOf | src/parsers/enhanced_generic_extractor.py:30-40 | when every strategy's table is well formed, so is the chosen one |
| Best.BestCovers | src/parsers/enhanced_generic_extractor.py:33-38 | no strategy that ran without raising has more rows than the chosen table |
| Best.BestIsFirstLargest | src/parsers/enhanced_generic_extractor.py:33-38 | a non-empty choice is the table of the first strategy with the largest row count (every earlier one had strictly fewer rows); an empty choice is the initial empty table |
| Best.HeaderFromImprovers | src/parsers/enhanced_generic_extractor.py:36-38 | the header changes only through the strategies that replaced the best table, and only by their keys |
| Best.SilentStrategies | src/parsers/enhanced_generic_extractor.py:36-38 | strategies that report no header field leave the header as it started |
| Best.HeaderKept | src/parsers/enhanced_generic_extractor.py:38 | the loop never removes a header field |
| Best.HeaderWithin | src/parsers/enhanced_generic_extractor.py:31-38 | when the starting header and every strategy use only keys of a set, so does the final header |
| Best.Conclude | src/parsers/enhanced_generic_extractor.py:42-45 | a non-empty best table is standardised and an empty one returned as it is, with the loop's header |
| Best.NothingFound | src/parsers/enhanced_generic_extractor.py:42-45 | when no strategy produced a row, the result is the empty table and the untouched header |
| Best.PickBest | src/parsers/enhanced_generic_extractor.py:33-40 | the selection loop computes the chosen table and header |
| Best.Finish | src/parsers/enhanced_generic_extractor.py:33-45 | the loop and the final standardisation compute the result of the definition |
| EnhancedGeneric.Take | src/parsers/enhanced_generic_extractor.py:61 | `lines[:n]` has at most `n` lines and no more than there are |
| EnhancedGeneric.HeaderStep | src/parsers/enhanced_generic_extractor.py:61-65 | a header line sets only the strategy's own keys, and a bank name it sets is the strategy's own |
| EnhancedGeneric.LinesHeader | src/parsers/enhanced_generic_extractor.py:61-65 | the header lines of one page set only the strategy's keys, and the bank is the strategy's or the earlier one |
| EnhancedGeneric.PagesHeader | src/parsers/enhanced_generic_extractor.py:53-65 | after all pages the header holds only the strategy's keys and the strategy's own bank name |
| EnhancedGeneric.SafraTxn | src/parsers/enhanced_generic_extractor.py:68-100 | a Safra row is named `BANCO SAFRA`, has no balance, comes from a line without the balance markers and has a description without balance words |
| EnhancedGeneric.SafraUnsigned | src/parsers/enhanced_generic_extractor.py:74-96 | a Safra amount is never negative, so its type follows from whether it is zero |
| EnhancedGeneric.CellsRead | src/parsers/enhanced_generic_extractor.py:160-171 | the description takes at most one part per cell |
| EnhancedGeneric.CellsReadUnsigned | src/parsers/enhanced_generic_extractor.py:160-171 | the amount gathered from the cells is never negative |
| EnhancedGeneric.AmountOnlyUnsigned | src/parsers/enhanced_generic_extractor.py:165-167 | a cell that `[\d.,]+$` matches never reads as a negative amount |
| EnhancedGeneric.AmountSpan | src/parsers/enhanced_generic_extractor.py:165 | text of digits, dots and commas up to its end (or a final newline) has no minus sign |
| EnhancedGeneric.DaycovalRow | src/parsers/enhanced_generic_extractor.py:146-188 | a Daycoval row has at least three cells, is named `BANCO DAYCOVAL`, has no balance, and its amount is the non-zero amount read from the other cells |
| EnhancedGeneric.DaycovalCredits | src/parsers/enhanced_generic_extractor.py:158-184 | every Daycoval row is a credit with a positive amount |
| EnhancedGeneric.BvRead | src/parsers/enhanced_generic_extractor.py:221-254 | a BV row is named `BANCO BV`, has no balance and a description without balance words |
| EnhancedGeneric.BvTxn | src/parsers/enhanced_generic_extractor.py:214-258 | the same for the first BV pattern that gives a row |
| EnhancedGeneric.BvUnsigned | src/parsers/enhanced_generic_extractor.py:216-250 | a BV amount is never negative |
| EnhancedGeneric.CitiRow | src/parsers/enhanced_generic_extractor.py:316-363 | a Citibank row has at least three cells and mapped date and amount columns, is named `CITIBANK`, and has no balance when no balance column was mapped |
| EnhancedGeneric.LineRead | src/parsers/enhanced_generic_extractor.py:498-518 | a matched line gives a row named after the extractor's bank, without a balance |
| EnhancedGeneric.LineTxn | src/parsers/enhanced_generic_extractor.py:485-522 | a line row never comes from a line with the balance markers |
| EnhancedGeneric.LineUnsigned | src/parsers/enhanced_generic_extractor.py:493-518 | a line amount is never negative |
| EnhancedGeneric.TextStrategy | src/parsers/enhanced_generic_extractor.py:47-420 | a strategy raises exactly when the file does not open or a page's text raises; otherwise its table is well formed and its header uses only its own keys |
| EnhancedGeneric.Outcomes | src/parsers/enhanced_generic_extractor.py:21-40 | there are six outcomes, in the order of the strategy list, all with well-formed tables |
| EnhancedGeneric.ReadHeader | src/parsers/enhanced_generic_extractor.py:61-65 | the header loop computes the page's header fields |
| EnhancedGeneric.ReadCells | src/parsers/enhanced_generic_extractor.py:160-171 | the cell loop computes the amount and the description |
| EnhancedGeneric.ReadDaycovalRow | src/parsers/enhanced_generic_extractor.py:146-191 | one turn of the row loop computes that row |
| EnhancedGeneric.ScanDaycovalTable | src/parsers/enhanced_generic_extractor.py:131-191 | the Daycoval table loop computes the table's rows |
| EnhancedGeneric.ScanCitiTable | src/parsers/enhanced_generic_extractor.py:282-363 | the Citibank table loop computes the table's rows |
| EnhancedGeneric.ScanDaycovalTables | src/parsers/enhanced_generic_extractor.py:130-191 | the loop over a page's tables, for Daycoval |
| EnhancedGeneric.ScanCitiTables | src/parsers/enhanced_generic_extractor.py:281-363 | the loop over a page's tables, for Citibank |
| EnhancedGeneric.ReadPage | src/parsers/enhanced_generic_extractor.py:53-103 | the rows of one page with text, by the strategy's own loop |
| EnhancedGeneric.ReadPageStep | src/parsers/enhanced_generic_extractor.py:53-103 | one page of the loop reads its header lines and yields its rows; a page without text is skipped |
| EnhancedGeneric.PagesSnoc | src/parsers/enhanced_generic_extractor.py:53-105 | one more page extends the rows and the header by that page's own |
| EnhancedGeneric.ReadPages | src/parsers/enhanced_generic_extractor.py:52-105 | the page loop reports a raise exactly when some page's text raises, and otherwise computes the rows and the header |
| EnhancedGeneric.RunTextStrategy | src/parsers/enhanced_generic_extractor.py:47-420 | running a strategy by its loops gives its outcome |
| EnhancedGeneric.RunExtractStatement | src/parsers/enhanced_generic_extractor.py:18-45 | the six strategies in turn and then the selection give the result of the definition |
| EnhancedGeneric.OutcomeKeys | src/parsers/enhanced_generic_extractor.py:47-420 | each strategy reports at most the bank name, an account and a branch number |
| EnhancedGeneric.HeaderKeysBound | src/parsers/enhanced_generic_extractor.py:18-45 | the final header always holds `banco` and at most `conta` and `agencia` besides |
| GenericSmart.NoCurrencyNoRows | src/parsers/generic_smart_extractor.py:171-209 | a table without any `R$` cell gives no row to the table strategy |
| GenericSmart.JoinedText | src/parsers/generic_smart_extractor.py:91-93 | the joined text has at least one character per page |
| GenericSmart.MatchTxn | src/parsers/generic_smart_extractor.py:99-121 | a matched row is named `GENÉRICO`, has no balance, and its description is the stripped second group |
| GenericSmart.FirstYieldIsFirst | src/parsers/generic_smart_extractor.py:95-126 | the pattern cascade gives nothing exactly when no pattern yields a row, and otherwise the rows of the first pattern that yields one |
| GenericSmart.PatternStrategy | src/parsers/generic_smart_extractor.py:77-128 | the pattern strategy raises exactly when the file does not open or a page's text raises; otherwise it reports no header field and a well-formed table |
| GenericSmart.PatternTxnsUnsigned | src/parsers/generic_smart_extractor.py:98-121 | a pattern whose amount group holds only digits, dots and commas never yields a negative amount |
| GenericSmart.MatchTxnUnsigned | src/parsers/generic_smart_extractor.py:103-110 | an amount text without a minus sign never reads as negative |
| GenericSmart.TextPatternsUnsigned | src/parsers/generic_smart_extractor.py:83-88 | each of the four patterns' amount group holds only digits, dots and commas |
| GenericSmart.FirstYieldUnsigned | src/parsers/generic_smart_extractor.py:95-126 | the cascade never yields a negative amount, and every row is named `GENÉRICO` |
| GenericSmart.PatternRowsUnsigned | src/parsers/generic_smart_extractor.py:83-126 | so the pattern strategy's amounts are never negative |
| GenericSmart.JoinPages | src/parsers/generic_smart_extractor.py:91-93 | joining page texts fails exactly when some page's text raises, and otherwise gives the joined text |
| GenericSmart.FirstYieldLoop | src/parsers/generic_smart_extractor.py:95-126 | the pattern loop with its early exit computes the cascade |
| GenericSmart.RunPatternStrategy | src/parsers/generic_smart_extractor.py:77-128 | the pattern strategy's loops give its outcome |
| GenericSmart.ParseLine | src/parsers/generic_smart_extractor.py:212-268 | a parsed line is named `GENÉRICO`, has no balance, and never comes from a line with the balance markers |
| GenericSmart.LineStrategy | src/parsers/generic_smart_extractor.py:130-147 | the line strategy raises exactly when the file does not open or a page's text raises; otherwise no header field and a well-formed table |
| GenericSmart.LinePatternsWithin | src/parsers/generic_smart_extractor.py:220-243 | both line patterns' amount groups hold only digits, dots and commas |
| GenericSmart.SafraAmountUnsigned | src/parsers/generic_smart_extractor.py:220-231 | the Safra line amount is never negative |
| GenericSmart.GeneralAmountUnsigned | src/parsers/generic_smart_extractor.py:243-255 | the general line amount is never negative |
| GenericSmart.ParseLineUnsigned | src/parsers/generic_smart_extractor.py:212-268 | a parsed line's amount is never negative |
| GenericSmart.LineRowsUnsigned | src/parsers/generic_smart_extractor.py:135-145 | no line row of any page has a negative amount |
| GenericSmart.ScanLines | src/parsers/generic_smart_extractor.py:135-145 | the page loop fails exactly when some page's text raises, and otherwise gives the rows of every page in order |
| GenericSmart.RunLineStrategy | src/parsers/generic_smart_extractor.py:130-147 | the line strategy's loops give its outcome |
| GenericSmart.Outcomes | src/parsers/generic_smart_extractor.py:17-34 | three outcomes in the strategy order, all with well-formed tables |
| GenericSmart.SmartHeader | src/parsers/generic_smart_extractor.py:24-39 | the header is always just `banco` = `GENÉRICO`, since no strategy reports a field |
| GenericSmart.TablesWinTies | src/parsers/generic_smart_extractor.py:27-37 | when the table strategy has rows and neither other strategy has more, its table is the one standardised |
| GenericSmart.RunExtractStatement | src/parsers/generic_smart_extractor.py:14-39 | the strategy loop and the selection give the result of the definition |
| GenericRows.ToRow | src/parsers/generic_smart_extractor.py:200-207 | a transaction becomes a row whose `arquivo`, `data_movimento` (day/month/year text), `historico` and `valor` are the transaction's, and whose `tipo` is `credit` exactly when the amount is positive |
| GenericRows.RowWideFields | src/parsers/enhanced_generic_extractor.py:473-480 | the `banco` cell is the transaction's bank; the wide dictionaries of the bank-specific strategies carry an empty `documento` and the optional `saldo` |
| GenericRows.RowDateReadsBack | src/parsers/generic_smart_extractor.py:202 | the written `data_movimento` parses back to the transaction's date |
| GenericRows.RowShaped | src/parsers/generic_smart_extractor.py:200-207 | a row has exactly the strategy's keys |
| GenericRows.TxnFrame | src/parsers/generic_smart_extractor.py:75 | the table built from the dictionaries has one row per transaction, in order, and no columns when there are none |
| GenericRows.StandardizedTxns | src/parsers/generic_smart_extractor.py:75 | after standardisation each row's date, amount, `tipo` and file name are those of its transaction |
| GenericRows.MapColumns | src/parsers/generic_smart_extractor.py:149-169 | every mapped column index lies inside the header |
| GenericRows.MappedLabelled | src/parsers/generic_smart_extractor.py:153-167 | each key is mapped to a header cell whose first matching keyword group is that key |
| GenericRows.MappedIsLast | src/parsers/generic_smart_extractor.py:153-167 | a later header cell never carries the same label (the last one wins) |
| GenericRows.LabelledMapped | src/parsers/generic_smart_extractor.py:153-167 | every labelled header cell's key is in the map |
| GenericRows.MapColumnsLoop | src/parsers/generic_smart_extractor.py:149-169 | the enumerate loop computes the column map |
| GenericRows.HeaderRow | src/parsers/generic_smart_extractor.py:55-60 | the header row is the first row mentioning a keyword; none when no row does |
| GenericRows.HeaderFrom | src/parsers/generic_smart_extractor.py:56-60 | the same search from a given row on |
| GenericRows.FindHeaderRow | src/parsers/generic_smart_extractor.py:55-60 | the search loop with `break` finds the header row |
| GenericRows.CellDate | src/parsers/generic_smart_extractor.py:181-185 | a date read from a cell (completed with the current year when at most five characters long, dashes turned into slashes) is a valid calendar date |
| GenericRows.RowTxn | src/parsers/generic_smart_extractor.py:171-210 | a row yields a transaction only when both `data` and `valor` are mapped and present, its description mentions no balance phrase, and its bank is the strategy's, without a balance |
| GenericRows.RowTxnCells | src/parsers/generic_smart_extractor.py:177-194 | the date cell starts with two digits, a separator and two digits and parses to the transaction's date; the amount cell reads as its amount; the description is the `historico` cell or empty |
| GenericRows.ThousandsDotRejected | src/parsers/generic_smart_extractor.py:188-189 | an amount in Brazilian notation with a thousands dot (`1.234,56`) fails to convert, so the row is skipped |
| GenericRows.SecondDotFails | src/parsers/generic_smart_extractor.py:189 | a number text with two dots does not convert |
| GenericRows.RowTxnSkips | src/parsers/generic_smart_extractor.py:196-198 | no collected transaction mentions a skipped balance phrase |
| GenericRows.TableTxns | src/parsers/generic_smart_extractor.py:50-73 | a table with fewer than two rows yields nothing, and any table yields fewer transactions than it has rows |
| GenericRows.ScanTable | src/parsers/generic_smart_extractor.py:50-73 | the per-table loop collects the table's transactions |
| GenericRows.TableStrategy | src/parsers/generic_smart_extractor.py:41-75 | the table strategy raises only when the file cannot be opened, and otherwise gives a well-formed table and no header fields |
| GenericRows.ScanPageTables | src/parsers/generic_smart_extractor.py:48-73 | the per-page loop over tables collects the page's transactions |
| GenericRows.RunTableStrategy | src/parsers/generic_smart_extractor.py:41-75 | the page loop computes the table strategy's outcome |
| GenericRows.TableRowsFromSpec | src/parsers/generic_smart_extractor.py:70-73 | every transaction of a table carries the strategy's bank, no balance, and no skipped phrase |
| GenericRows.TableStrategyRows | src/parsers/generic_smart_extractor.py:46-73 | the same holds for every transaction of the whole document |
| Numbers.Float | src/parsers/bb/bb_extractor.py:119 | Python's `float()` of a text reads a negative amount only when the text has a minus sign |
| Numbers.FloatNoMinus | src/parsers/bb/bb_extractor.py:119 | a text without a minus sign never reads as negative |
| Numbers.FloatShow | src/parsers/bb/bb_extractor.py:119 | the plain rendering of an amount (`-1234.56`) reads back to it |
| Numbers.BrText | src/parsers/enhanced_generic_extractor.py:240 | dropping the thousands dots and turning the comma into the decimal point leaves no comma and keeps the sign |
| Numbers.BrFloatShowBr | src/parsers/enhanced_generic_extractor.py:240-241 | an amount written in Brazilian notation with thousands dots (`-1.234,56`) reads back to it |
| Numbers.BrFloatShowComma | src/parsers/enhanced_generic_extractor.py:167 | an amount written with only a decimal comma (`1234,56`) reads back to it |
| Numbers.MixedText | src/parsers/bb/bb_extractor.py:111-117 | the three-way reading leaves no comma and keeps the sign |
| Numbers.MixedFloat | src/parsers/bb/bb_extractor.py:111-119 | a text without a minus sign never reads as negative |
| Numbers.MixedShowBr | src/parsers/bb/bb_extractor.py:111-119 | an amount in Brazilian notation reads back to it through the three-way reading |
| Numbers.NatToString | src/parsers/generic_smart_extractor.py:183 | the decimal text of a year is a non-empty run of digits |
| Numbers.DigitsOfNat | src/parsers/generic_smart_extractor.py:183 | that text reads back to the number |
| Dates.Strptime | src/parsers/bb/bb_extractor.py:77 | `strptime(s, '%d/%m/%Y')` succeeds only with a valid calendar date |
| Dates.StrptimeStrftime | src/parsers/bb/bb_extractor.py:77 | writing a valid date with `strftime('%d/%m/%Y')` and parsing it gives the date back |
| Text.Strip | src/parsers/bb/bb_extractor.py:73 | `strip()` keeps only characters of the text and leaves no space at either end |
| Text.LStrip | src/parsers/bb/bb_extractor.py:73 | the left part removed by `strip()` is all spaces and the rest is a suffix |
| Text.RStrip | src/parsers/bb/bb_extractor.py:73 | the right part removed by `strip()` is all spaces and the rest is a prefix |
| Text.Drop | src/parsers/enhanced_generic_extractor.py:240 | `replace(c, '')` removes every `c` and keeps every other character |
| Text.Swap | src/parsers/enhanced_generic_extractor.py:240 | `replace(a, b)` for single characters changes exactly the `a`s into `b`s |
| Text.KeepIf | src/parsers/generic_smart_extractor.py:189 | `re.sub` with a negated character class keeps exactly the characters in the class |
| Text.Words | src/parsers/bb/bb_extractor.py:31 | `split()` gives non-empty words without spaces |
| Text.Find | src/parsers/generic_smart_extractor.py:189 | the first occurrence of a sub-text, or -1 exactly when there is none |
| Text.Split | src/parsers/bb/bb_extractor.py:18 | `split(sep)` gives at least one piece and no piece holds the separator |
| Text.JoinSplit | src/parsers/bb/bb_extractor.py:18 | joining the pieces of `split(sep)` with the separator gives the text back |
| Text.SplitJoin | src/parsers/bb/bb_extractor.py:18 | splitting a join of separator-free pieces gives the pieces back |
| Patterns.DescAmount | src/parsers/generic_smart_extractor.py:220 | a date, a description and an amount pattern in groups 1, 2 and 3; the amount group stays within digits, dots and commas |
| Patterns.Anchored | src/parsers/enhanced_generic_extractor.py:74 | anchoring with `^` and `$` keeps that property |
| Patterns.CdAmountWithin | src/parsers/bb/bb_extractor.py:104 | the amount of a C/D match holds only digits, dots and commas |
| Patterns.PiecesWithin | src/parsers/generic_smart_extractor.py:243 | the date and amount pieces capture nothing themselves and the amounts stay within digits, dots and commas |
| Patterns.LinesWithin | src/parsers/enhanced_generic_extractor.py:74 | the same for the whole line patterns of the strategies |
| Patterns.MatchAmountUnsigned | src/parsers/enhanced_generic_extractor.py:74 | a `re.match` group read only from digits, dots and commas has no minus sign |
| Patterns.SearchAmountUnsigned | src/parsers/bb/bb_extractor.py:138 | the same for `re.search` |
| Patterns.FindAmountUnsigned | src/parsers/bb/bb_extractor.py:104 | the same for every match of `re.findall` |
| Patterns.UnsignedReadings | src/parsers/enhanced_generic_extractor.py:87 | a text without a minus sign never reads as a negative amount, in any of the three readings |
| Regex.ReMatch | src/parsers/bb/bb_extractor.py:74 | a `re.match` match starts at the beginning of the text and ends inside it |
| Regex.ReSearch | src/parsers/bb/bb_extractor.py:138 | a `re.search` match lies inside the text |
| Regex.FindIter | src/parsers/bb/bb_extractor.py:104 | every match of `re.findall` lies inside the text |
| Regex.RunCaps | src/parsers/bb/bb_extractor.py:104 | a group whose pattern consumes only characters of a class captures only such characters |
| Regex.RunAllEol | src/parsers/enhanced_generic_extractor.py:74 | `$` matches only at the end of the text or just before a final newline |
| Frames.FromRecords | src/parsers/generic_smart_extractor.py:75 | `pd.DataFrame(list_of_dicts)` has one row per dictionary, the union of their keys as columns in first-seen order, and a missing key as a null cell |
| Frames.SetColumn | src/parsers/base_extractor.py:34-36 | `df[col] = v` adds the column at the end when missing and sets it in every row |
| Frames.MapColumn | src/parsers/base_extractor.py:39-46 | converting a column changes that column in every row and nothing else |
| Frames.Select | src/parsers/base_extractor.py:49 | selecting columns gives exactly them, in the order given, with the rows' values |
| Frames.Rename | src/parsers/bb/bb_extractor_adapter.py:40 | renaming a column moves each row's value to the new name |
| Frames.DropColumns | src/parsers/bb/bb_folder_extractor.py:219 | `drop(cols, axis=1)` fails exactly when a column is missing, and otherwise removes exactly those columns |
| Frames.Concat | src/parsers/bb/bb_folder_extractor.py:212 | `pd.concat` keeps every row and has the union of the columns |
| Frames.SortBy | src/parsers/bb/bb_folder_extractor.py:219 | `sort_values(keys)` gives rows ordered by the keys and a permutation of the input rows |
| Frames.Insert | src/parsers/bb/bb_folder_extractor.py:219 | inserting a row into sorted rows keeps them sorted and adds exactly that row |
| Frames.SortRows | src/parsers/bb/bb_folder_extractor.py:219 | the row sort orders by the keys and permutes the rows |
| Frames.Dedup | src/parsers/bb/bb_folder_extractor.py:215 | `drop_duplicates()` keeps exactly the rows present, each once, and never adds rows |
| Frames.DropDuplicates | src/parsers/bb/bb_folder_extractor.py:215 | the same on a whole table, keeping its columns |
| Frames.ToNumeric | src/parsers/base_extractor.py:43 | `to_numeric(errors='coerce')` gives a number or a null, and leaves numbers alone |
| Frames.ToDate | src/parsers/base_extractor.py:40 | `to_datetime(errors='coerce')` gives a date or a null, and leaves dates alone |
| Frames.RowLeTotal | src/parsers/bb/bb_folder_extractor.py:219 | any two rows are ordered one way or the other by the sort keys |
| Pdf.PageLines | src/parsers/bb/bb_extractor.py:18 | an extracted page text splits into at least one line |
| Pdf.CellText | src/parsers/bb/bb_extractor.py:73 | a missing table cell reads as an empty text |
| MappedTables.Field | src/parsers/bradesco/bradesco_extractor.py:119-131 | an unmapped column reads as an empty text, and a mapped column outside the row is the index error that drops the row |
| MappedTables.Magnitude | src/parsers/bradesco/bradesco_extractor.py:141-156 | an amount read after dropping the minus signs is never negative |
| MappedTables.Amount | src/parsers/bradesco/bradesco_extractor.py:137-160 | the cell converts exactly when its magnitude does; the direction is credit exactly when the cell has neither a minus sign nor a `D`; a debit is stored negated and a credit as it is |
| MappedTables.AmountOf | src/parsers/bradesco/bradesco_extractor.py:133-160 | an unmapped or empty amount cell is a zero debit, a filled one is read as above, and a mapped cell outside the row drops the row |
| MappedTables.SaldoOf | src/parsers/bradesco/bradesco_extractor.py:162-174 | a balance is never negative, and the row is dropped only when the mapped balance cell is outside the row |
| MappedTables.RowTxn | src/parsers/bradesco/bradesco_extractor.py:104-191 | a row is kept only with at least three cells and a mapped date cell holding a full valid date; its description, document, amount and balance are those of its cells, and a `SALDO ANTERIOR`/`SALDO ATUAL` description drops it |
| MappedTables.RowTxnCells | src/parsers/bradesco/bradesco_extractor.py:133-158 | in a kept row a credit is never negative and a debit never positive, an empty amount is a zero debit, and a filled amount is a debit exactly when it has a minus sign or a `D` |
| MappedTables.RowTxnSkips | src/parsers/bradesco/bradesco_extractor.py:108-160 | an amount cell that does not convert, or any mapped column outside the row, drops the row |
| MappedTables.TableTxns | src/parsers/bradesco/bradesco_extractor.py:65-196 | a table of fewer than two rows or without a header row gives nothing; otherwise there are fewer transactions than rows, each with an amount whose sign agrees with its direction |
| MappedTables.HeaderColumns | src/parsers/bradesco/bradesco_extractor.py:83-101 | every mapped key points at a header cell with that label, no later cell has the same label, and every labelled cell is mapped |
| MappedTables.ReadRow | src/parsers/bradesco/bradesco_extractor.py:104-194 | the row step of the loop, with its `continue`s, computes the row's transaction |
| MappedTables.ReadRows | src/parsers/bradesco/bradesco_extractor.py:104-196 | the loop over the rows below the header keeps, in order, the transaction of every row that reads |
| MappedTables.ReadTable | src/parsers/bradesco/bradesco_extractor.py:65-196 | the header search and the row loop compute the table's transactions |
| Bradesco.FirstKeyword | src/parsers/bradesco/bradesco_extractor.py:56-61 | the holder's keyword is the first of `TITULAR`, `CLIENTE`, `CORRENTISTA` the line contains |
| Bradesco.SecondPart | src/parsers/bradesco/bradesco_extractor.py:58-60 | the text kept after the keyword never contains the keyword |
| Bradesco.Period | src/parsers/bradesco/bradesco_extractor.py:44-51 | the period changes only its two dates, the start only when the line has at least two dates and it is the first of them, and the end only together with a valid start |
| Bradesco.HeaderLine | src/parsers/bradesco/bradesco_extractor.py:23-61 | a line sets the bank only when it mentions BRADESCO (to the whole line), the branch only from an AGÊNCIA/AG. line's first number, the account only from a CONTA CORRENTE line's first number, the period only from a PERÍODO line and the holder only from a line with a holder keyword |
| Bradesco.HeaderLines | src/parsers/bradesco/bradesco_extractor.py:21 | only the first twenty lines are header lines |
| Bradesco.HeaderLineSourced | src/parsers/bradesco/bradesco_extractor.py:23-61 | reading one more line keeps every set field tied to a line with its keyword |
| Bradesco.ThreadSourced | src/parsers/bradesco/bradesco_extractor.py:18-63 | after any sequence of lines, every set field came from one of them carrying its keyword |
| Bradesco.PageHeaderSourced | src/parsers/bradesco/bradesco_extractor.py:18-63 | every field of a page's header came from one of its first twenty lines |
| Bradesco.PageHeaderFirst20 | src/parsers/bradesco/bradesco_extractor.py:21 | lines after the twentieth never change the header |
| Bradesco.ReadHeader | src/parsers/bradesco/bradesco_extractor.py:18-63 | the header loop computes the page header |
| Bradesco.TableRows | src/parsers/bradesco/bradesco_extractor.py:177-191 | each transaction of a table carries the page's header fields |
| Bradesco.Extract | src/parsers/bradesco/bradesco_extractor.py:198-215 | the statement is read exactly when the file opens and every page's text extracts |
| Bradesco.PageRowsHeader | src/parsers/bradesco/bradesco_extractor.py:204-213 | every transaction of a page carries that page's own header and a sign that agrees with its direction |
| Bradesco.PagesAgree | src/parsers/bradesco/bradesco_extractor.py:202-213 | across all pages, every transaction's sign agrees with its direction |
| Bradesco.ReadPage | src/parsers/bradesco/bradesco_extractor.py:210-213 | the table loop concatenates the transactions of the page's tables in order |
| Bradesco.ExtractTxns | src/parsers/bradesco/bradesco_extractor.py:198-215 | the page loop computes the statement's transactions |
| Bradesco.ToRow | src/parsers/bradesco/bradesco_extractor.py:177-189 | a transaction's dictionary has exactly the eleven keys |
| Bradesco.TxnFrame | src/parsers/bradesco/bradesco_extractor.py:215 | the table has one row per transaction, in order, and no columns when there is none |
| Bradesco.TxnCells | src/parsers/bradesco/bradesco_extractor.py:177-189 | a row carries the file name, `tipo` is `credit` exactly for a credit, a credit's `valor` is never negative and a debit's never positive, and a balance is never negative |
| Bradesco.StatementRows | src/parsers/bradesco/bradesco_extractor.py:198-215 | the table has one row per transaction and every row has the file's name and a `valor` whose sign agrees with its `tipo` |
| Bradesco.RunExtractStatement | src/parsers/bradesco/bradesco_extractor.py:198-215 | the method builds the statement's table |
| BradescoCc.CnpjLine | src/parsers/bradesco/bradesco_conta_corrente.py:23-31 | a CNPJ line changes only the client and the CNPJ; with a vertical bar the client is the stripped text before the first one, and without one nothing changes |
| BradescoCc.AccountFields | src/parsers/bradesco/bradesco_conta_corrente.py:33-45 | an account line changes only the branch, account and period fields, and the period only when the `Entre … e …` pattern is found |
| BradescoCc.HeaderLine | src/parsers/bradesco/bradesco_conta_corrente.py:22-50 | the client and CNPJ change only on a `CNPJ:` line; branch, account and period only on an `Ag:`/`CC:`/`Entre` line without `CNPJ:`; the user only on a `Nome do usuário:` line that is neither; a user name never begins with a space |
| BradescoCc.HeaderLines | src/parsers/bradesco/bradesco_conta_corrente.py:22 | only the first fifteen lines are header lines |
| BradescoCc.SourcedGrow | src/parsers/bradesco/bradesco_conta_corrente.py:22 | a field sourced by some lines stays sourced when more lines are read |
| BradescoCc.HeaderLineSourced | src/parsers/bradesco/bradesco_conta_corrente.py:22-50 | reading one more line keeps every set field tied to a line of its kind |
| BradescoCc.ThreadSourced | src/parsers/bradesco/bradesco_conta_corrente.py:22-50 | after any sequence of lines, every set field came from one of them of the kind that may set it |
| BradescoCc.ReadHeader | src/parsers/bradesco/bradesco_conta_corrente.py:22-50 | the header loop applies the first fifteen lines in order to the header built so far |
| BradescoCc.BlockEnd | src/parsers/bradesco/bradesco_conta_corrente.py:84-90 | the inner loop stops inside the page |
| BradescoCc.BlockEndStops | src/parsers/bradesco/bradesco_conta_corrente.py:87 | the inner loop stops at the next line that begins with a date (unstripped) or at the end, and no line it passed begins with a date |
| BradescoCc.Continuation | src/parsers/bradesco/bradesco_conta_corrente.py:87-90 | the continuation lines are at most the lines passed, and none is empty |
| BradescoCc.ContinuationSnoc | src/parsers/bradesco/bradesco_conta_corrente.py:88-89 | one more line adds its stripped text exactly when it is not blank |
| BradescoCc.Tokens | src/parsers/bradesco/bradesco_conta_corrente.py:97 | no number run of the block contains a minus sign |
| BradescoCc.Historico | src/parsers/bradesco/bradesco_conta_corrente.py:121-125 | the description holds no digit, dot, comma or minus sign, and only characters of the block or spaces |
| BradescoCc.Readings | src/parsers/bradesco/bradesco_conta_corrente.py:54-59 | there is one reading per line |
| BradescoCc.ReadingsAt | src/parsers/bradesco/bradesco_conta_corrente.py:54-59 | the reading at a line is that line's reading |
| BradescoCc.Ends | src/parsers/bradesco/bradesco_conta_corrente.py:84-90 | each line's block end lies after it and inside the page |
| BradescoCc.EndsAt | src/parsers/bradesco/bradesco_conta_corrente.py:84-90 | the end recorded for a line is where its inner loop stops |
| BradescoCc.WalkBlocks | src/parsers/bradesco/bradesco_conta_corrente.py:53-154 | the outer loop's transactions come from block readings at increasing lines, each block starting at or after the previous block's end |
| BradescoCc.WalkStep | src/parsers/bradesco/bradesco_conta_corrente.py:149-154 | a read block moves on to its end and adds its transaction, if any; anything else moves one line on |
| BradescoCc.WalkTurn | src/parsers/bradesco/bradesco_conta_corrente.py:146-154 | one turn of the outer loop keeps the transactions built so far plus those still to come equal to the page's transactions |
| BradescoCc.TxnsFromBlocks | src/parsers/bradesco/bradesco_conta_corrente.py:53-154 | every transaction of a page is read from a dated block, and the blocks do not overlap and are in page order |
| BradescoCc.BlockTxn | src/parsers/bradesco/bradesco_conta_corrente.py:58-144 | a transaction's block is not SALDO ANTERIOR and has two number runs or more; its balance is the last run and its amount the one before, both valid and never negative; the document is the first run when there are three; it is a credit exactly when the block has no minus sign and no CHEQUE; the date is the line's date; the header is the current one |
| BradescoCc.TxnsUnsigned | src/parsers/bradesco/bradesco_conta_corrente.py:97-135 | every transaction of a page has a non-negative amount and balance and carries the current header |
| BradescoCc.CollectBlock | src/parsers/bradesco/bradesco_conta_corrente.py:83-90 | the inner loop stops at the block's end and collects the first line's rest followed by the non-blank continuation lines |
| BradescoCc.Turn | src/parsers/bradesco/bradesco_conta_corrente.py:55-154 | one turn of the outer loop yields the line's transaction and jumps to the block's end when the block was read, and otherwise yields nothing and moves one line on |
| BradescoCc.TurnDated | src/parsers/bradesco/bradesco_conta_corrente.py:59-152 | the same for a dated line: an invalid date or a SALDO ANTERIOR line moves one line on |
| BradescoCc.TurnBlock | src/parsers/bradesco/bradesco_conta_corrente.py:70-152 | the same after the date is read: the block is collected and its amounts read |
| BradescoCc.TurnAmounts | src/parsers/bradesco/bradesco_conta_corrente.py:97-152 | with two number runs that convert a transaction is made and the loop jumps to the block's end; with fewer it jumps there with nothing; a run that does not convert moves one line on |
| BradescoCc.ScanLines | src/parsers/bradesco/bradesco_conta_corrente.py:53-154 | the outer loop builds exactly the page's transactions |
| BradescoCc.Extract | src/parsers/bradesco/bradesco_conta_corrente.py:10-156 | the statement is read exactly when the file opens and every page's text extracts |
| BradescoCc.PagesHeader | src/parsers/bradesco/bradesco_conta_corrente.py:14-50 | the returned header is the header lines of all pages applied in order, and every set field came from a line allowed to set it |
| BradescoCc.PagesUnsigned | src/parsers/bradesco/bradesco_conta_corrente.py:13-156 | no transaction of the document has a negative amount or balance |
| BradescoCc.ExtractCc | src/parsers/bradesco/bradesco_conta_corrente.py:10-156 | the page loop computes the header and the transactions |
| BradescoCc.ToRow | src/parsers/bradesco/bradesco_conta_corrente.py:128-144 | a transaction's dictionary has exactly the fifteen keys |
| BradescoCc.TxnFrame | src/parsers/bradesco/bradesco_conta_corrente.py:156 | the table has one row per transaction, in order, and no columns when there is none |
| BradescoCc.TxnCells | src/parsers/bradesco/bradesco_conta_corrente.py:128-144 | `tipo` is `credit` exactly for a credit; the amount goes to `credito` or to `debito` and the other is zero; neither is negative, nor is the balance |
| BradescoCc.Combined | src/parsers/bradesco/bradesco_cc_adapter.py:28 | `valor` is set on every row to `credito` minus `debito`, added at the end when missing, and every other cell is unchanged |
| BradescoCc.AdaptFrame | src/parsers/bradesco/bradesco_cc_adapter.py:26-34 | the adapted table is well formed |
| BradescoCc.AdapterExtract | src/parsers/bradesco/bradesco_cc_adapter.py:19-36 | the adapter fails exactly when the extractor does and returns the extractor's header |
| BradescoCc.AdaptRow | src/parsers/bradesco/bradesco_cc_adapter.py:28-34 | after adapting, a row's `valor` is its `credito` minus its `debito`, and its `tipo` and `arquivo` are kept |
| BradescoCc.AdaptCell | src/parsers/bradesco/bradesco_cc_adapter.py:28-34 | every standard cell of an adapted row is the combined row's cell, converted |
| BradescoCc.SignedAmount | src/parsers/bradesco/bradesco_cc_adapter.py:28 | `credito` minus `debito` is the amount for a credit and its negation for a debit |
| BradescoCc.StandardLacksParts | src/parsers/bradesco/bradesco_cc_adapter.py:31 | `credito` and `debito` are not standard columns |
| BradescoCc.AdaptColumns | src/parsers/bradesco/bradesco_cc_adapter.py:26-34 | adapting keeps every row, removes `credito` and `debito` and has every standard column |
| BradescoCc.AdaptedValor | src/parsers/bradesco/bradesco_cc_adapter.py:28-34 | an adapted row's `valor` is the signed amount |
| BradescoCc.RowValor | src/parsers/bradesco/bradesco_cc_adapter.py:28 | `credito` minus `debito` of a transaction's row is its signed amount |
| BradescoCc.AdaptedTipo | src/parsers/bradesco/bradesco_cc_adapter.py:28-34 | an adapted row's `tipo` is `credit` exactly for a credit, and it has the file's name |
| BradescoCc.AdaptedTable | src/parsers/bradesco/bradesco_cc_adapter.py:26-34 | a non-empty adapted table has one row per transaction, no `credito`/`debito`, every standard column, and each row's signed `valor`, `tipo` and file name |
| BradescoCc.AdapterRows | src/parsers/bradesco/bradesco_cc_adapter.py:19-36 | an empty result is returned as the extractor built it; otherwise every row has a `valor` that is positive-or-zero for a credit and negative-or-zero for a debit, agreeing with its `tipo`, and the file's name |
| BradescoCc.AdapterExtractStatement | src/parsers/bradesco/bradesco_cc_adapter.py:19-36 | the adapter's steps give the adapter's result |
| BradescoInv.HeaderLine | src/parsers/bradesco/bradesco_investimentos_extractor.py:22-31 | a header line sets only the client (upper-cased text names a municipality or city hall; the stripped line), or else both period dates (a `Período:` line with two full dates or more: the first two), or else the bank (`BANCO BRADESCO` in the line: `BANCO BRADESCO S.A`); a client line always sets the client and nothing else |
| BradescoInv.HeaderLines | src/parsers/bradesco/bradesco_investimentos_extractor.py:22 | the header lines are at most the first ten lines of the page, as a prefix |
| BradescoInv.SourcedGrow | src/parsers/bradesco/bradesco_investimentos_extractor.py:22-31 | a field sourced by some lines stays sourced when more lines are read |
| BradescoInv.HeaderLineSourced | src/parsers/bradesco/bradesco_investimentos_extractor.py:22-31 | reading one more header line keeps every set field traceable to a line allowed to set it |
| BradescoInv.ThreadSourced | src/parsers/bradesco/bradesco_investimentos_extractor.py:14-31 | a header read from lines has a client only from a client line (its stripped text), a period only from a `Período:` line, and a bank only from a `BANCO BRADESCO` line, always `BANCO BRADESCO S.A` |
| BradescoInv.ReadHeader | src/parsers/bradesco/bradesco_investimentos_extractor.py:22-31 | the header loop continues the previous pages' header with the page's first ten lines, in order |
| BradescoInv.Number | src/parsers/bradesco/bradesco_investimentos_extractor.py:89-119 | a numeric column reads as 0 when unmapped, empty or not a number, is `None` (the row is dropped) when its index is outside the row, and otherwise is the cell converted |
| BradescoInv.RowMovement | src/parsers/bradesco/bradesco_investimentos_extractor.py:69-140 | a data row gives a movement only when it has three cells or more, a mapped `data` cell that starts with a full date and converts to that date, and readable historico and numeric cells; the movement holds exactly those values |
| BradescoInv.ScansFromRows | src/parsers/bradesco/bradesco_investimentos_extractor.py:41-143 | every movement of a table was read from a data row below some header row, with that header row's columns |
| BradescoInv.ScansFromSingle | src/parsers/bradesco/bradesco_investimentos_extractor.py:41-143 | a table with exactly one header row gives the data rows below that header, read with its columns |
| BradescoInv.ScansFromNone | src/parsers/bradesco/bradesco_investimentos_extractor.py:41-42 | a table with no header row gives no movement |
| BradescoInv.RepeatedHeader | src/parsers/bradesco/bradesco_investimentos_extractor.py:41-143 | two header rows give two passes: every data row below the second is read once under each; when the two header rows are equal those rows appear twice |
| BradescoInv.ScansFromHeaders | src/parsers/bradesco/bradesco_investimentos_extractor.py:41-143 | from any row up to the first of two header rows, the scan is the first header's rows followed by the second's |
| BradescoInv.ReadRows | src/parsers/bradesco/bradesco_investimentos_extractor.py:69-143 | the data-row loop keeps, in order, the movements of the rows that read as one |
| BradescoInv.ReadTable | src/parsers/bradesco/bradesco_investimentos_extractor.py:36-143 | the row loop of one table gives the table's movements, skipping a table of fewer than two rows |
| BradescoInv.ProductLine | src/parsers/bradesco/bradesco_investimentos_extractor.py:155-179 | a product is read only from a line that names BRADESCO before a CNPJ and has three words or more; its balances are the Brazilian readings of the third- and second-to-last words |
| BradescoInv.ProductWords | src/parsers/bradesco/bradesco_investimentos_extractor.py:156-177 | the opening and closing balances are the conversions of the third- and second-to-last words, and the share holds no `%` |
| BradescoInv.Window | src/parsers/bradesco/bradesco_investimentos_extractor.py:150 | at most nine lines follow an announcing line, each the line at its place |
| BradescoInv.ProductsWithin | src/parsers/bradesco/bradesco_investimentos_extractor.py:148-179 | an announcing line lists at most nine products, each read from one of the nine lines after it with no `Total` line between them |
| BradescoInv.ProductAt | src/parsers/bradesco/bradesco_investimentos_extractor.py:150-152 | the lines read before the `Total` break are the lines right after the announcing line, none of them mentioning `Total` |
| BradescoInv.NoProductHeader | src/parsers/bradesco/bradesco_investimentos_extractor.py:147-149 | lines without an announcing line list no product |
| BradescoInv.ScanProducts | src/parsers/bradesco/bradesco_investimentos_extractor.py:150-179 | the inner loop, with its break at the first `Total` line, reads the announced products |
| BradescoInv.ScanSummaries | src/parsers/bradesco/bradesco_investimentos_extractor.py:146-179 | the loop over the first page's lines reads every announced product, in order |
| BradescoInv.Moves | src/parsers/bradesco/bradesco_investimentos_extractor.py:125-140 | one movement entry per movement, in order, each with the current header |
| BradescoInv.Resumos | src/parsers/bradesco/bradesco_investimentos_extractor.py:164-177 | one summary entry per product, in order, each with the current header |
| BradescoInv.Extract | src/parsers/bradesco/bradesco_investimentos_extractor.py:10-181 | the statement is read exactly when the file opens and every page's text extracts |
| BradescoInv.PagesFront | src/parsers/bradesco/bradesco_investimentos_extractor.py:17 | every page of a prefix of the pages still has text |
| BradescoInv.SummariesFirstPage | src/parsers/bradesco/bradesco_investimentos_extractor.py:146-179 | every summary entry of the document is a product read from the first page |
| BradescoInv.NoProductsNoSummaries | src/parsers/bradesco/bradesco_investimentos_extractor.py:146-179 | a first page without a `Produto … C.N.P.J` line gives a document of movements only |
| BradescoInv.ReadTables | src/parsers/bradesco/bradesco_investimentos_extractor.py:34-143 | the table loop gives the movements of the page's tables, in order |
| BradescoInv.ExtractStatement | src/parsers/bradesco/bradesco_investimentos_extractor.py:10-181 | the page loop gives the extraction result, failing on a file that does not open or a page without text |
| BradescoInv.ReadPage | src/parsers/bradesco/bradesco_investimentos_extractor.py:18-179 | one pass of the page loop reads the header lines, the tables and, on the first page, the products |
| BradescoInv.PagesSnoc | src/parsers/bradesco/bradesco_investimentos_extractor.py:17-179 | one more page with text extends the scan by one page step |
| BradescoInv.ColumnsHave | src/parsers/bradesco/bradesco_investimentos_extractor.py:125-181 | the columns are distinct, hold every movement key when there is a movement and every summary key when there is a summary, have `tipo` exactly when there is a summary, and have none of the adapter's new names |
| BradescoInv.MoveFirstColumns | src/parsers/bradesco/bradesco_investimentos_extractor.py:125-181 | with a movement first, the columns are the twelve movement keys and, when there is a summary, its five own keys |
| BradescoInv.ResumoFirstColumns | src/parsers/bradesco/bradesco_investimentos_extractor.py:164-181 | with a summary first, the columns are the ten summary keys and, when there is a movement, its seven own keys |
| BradescoInv.KeyFacts | src/parsers/bradesco/bradesco_investimentos_extractor.py:125-177 | the key lists are without repeats, share exactly the file and header keys, and only the summary has `tipo` |
| BradescoInv.KeysApart | src/parsers/bradesco/bradesco_investimentos_extractor.py:125-177 | a key only one kind has is not a key of the other kind |
| BradescoInv.KeysShared | src/parsers/bradesco/bradesco_investimentos_extractor.py:125-177 | every key of one kind is a key of the other or one of its own keys |
| BradescoInv.KeysUnrenamed | src/parsers/bradesco/bradesco_investimentos_extractor.py:125-177 | only the summary has `tipo`, and neither kind has `data_movimento`, `valor` or `conta` |
| BradescoInv.MoveKeysDistinct | src/parsers/bradesco/bradesco_investimentos_extractor.py:125-138 | the movement keys are distinct |
| BradescoInv.ResumoKeysDistinct | src/parsers/bradesco/bradesco_investimentos_extractor.py:164-175 | the summary keys are distinct |
| BradescoInv.ToRow | src/parsers/bradesco/bradesco_investimentos_extractor.py:181 | a dictionary's row has exactly the table's columns |
| BradescoInv.RowsOf | src/parsers/bradesco/bradesco_investimentos_extractor.py:181 | one row per entry, in order |
| BradescoInv.EntryFrame | src/parsers/bradesco/bradesco_investimentos_extractor.py:181 | the table is well formed, with one row per entry and columns the adapter can rename |
| BradescoInv.ExtractFrame | src/parsers/bradesco/bradesco_investimentos_extractor.py:181 | the table and the header are returned exactly when the extraction succeeds |
| BradescoInv.MoveRow | src/parsers/bradesco/bradesco_investimentos_extractor.py:125-138 | a movement's row holds the file name, the date written back as `dd/mm/yyyy`, the historico, the net value and the client, and no `tipo` |
| BradescoInv.MoveCells | src/parsers/bradesco/bradesco_investimentos_extractor.py:125-138 | the same cells of a movement's dictionary, whatever the columns |
| BradescoInv.ResumoRow | src/parsers/bradesco/bradesco_investimentos_extractor.py:170 | a summary's row has `tipo` `resumo_investimento` |
| BradescoInv.DropSummariesAsWritten | src/parsers/bradesco/bradesco_inv_adapter.py:28 | the filter as written raises exactly when there is no `tipo` column, and otherwise keeps the rows whose `tipo` is not `resumo_investimento` |
| BradescoInv.Renamed | src/parsers/bradesco/bradesco_inv_adapter.py:31-38 | after renaming, `data_movimento`, `valor` and `conta` hold the old `data`, `valor_liquido` and `cliente`, those old names are gone, and every other column is unchanged |
| BradescoInv.ReplaceAbsent | src/parsers/bradesco/bradesco_inv_adapter.py:38 | renaming one column to another brings in no third name |
| BradescoInv.Finish | src/parsers/bradesco/bradesco_inv_adapter.py:38-42 | after renaming, setting the bank and standardising, every standard column is present and holds the renamed cell or the adapter's bank name, coerced |
| BradescoInv.AdaptFrameIntended | src/parsers/bradesco/bradesco_inv_adapter.py:26-42 | with the summary filter as intended, an empty table is returned as it is and any other is filtered and finished into a well-formed table |
| BradescoInv.AdaptFrame | src/parsers/bradesco/bradesco_inv_adapter.py:26-42 | the adapter as written raises exactly on a non-empty table without `tipo`, and otherwise gives the intended adapted table |
| BradescoInv.AdapterExtract | src/parsers/bradesco/bradesco_inv_adapter.py:19-44 | the adapter fails exactly when the extractor does or when the extractor found rows but no product summary among them (no `tipo` column), and otherwise returns the extractor's header |
| BradescoInv.AdapterExtractIntended | src/parsers/bradesco/bradesco_inv_adapter.py:19-44 | with the summary filter as intended, the adapter fails exactly when the extractor does and returns the extractor's header |
| BradescoInv.AdapterExtractFrame | src/parsers/bradesco/bradesco_inv_adapter.py:19-44 | on a readable document, the table the adapter returns (as written, when it returns one, or as intended) is the extractor's table with the intended filter applied |
| BradescoInv.AdapterExtractStatement | src/parsers/bradesco/bradesco_inv_adapter.py:19-44 | the adapter's steps as written, raising `KeyError` on a non-empty table without `tipo`, give the adapter's result |
| BradescoInv.MovesOf | src/parsers/bradesco/bradesco_inv_adapter.py:28 | the movements kept are entries of the document, all movements, and every movement entry is kept |
| BradescoInv.KeepEntry | src/parsers/bradesco/bradesco_inv_adapter.py:28 | the filter drops a summary's row and keeps a movement's, once summaries mean a `tipo` column |
| BradescoInv.FilterMoves | src/parsers/bradesco/bradesco_inv_adapter.py:28 | filtering the rows leaves exactly the movements' rows, in order |
| BradescoInv.IntendedRows | src/parsers/bradesco/bradesco_inv_adapter.py:26-42 | with the intended filter, a non-empty adapted table has one row per movement, in order, every standard column, and each standard cell the renamed movement cell or the bank name, coerced |
| BradescoInv.AdaptedRows | src/parsers/bradesco/bradesco_inv_adapter.py:26-42 | as written, a non-empty extraction is adapted exactly when it holds a summary row, and then has one row per movement, in order, every standard column, and each standard cell the renamed movement cell or the bank name, coerced |
| BradescoInv.AdaptedMoveCells | src/parsers/bradesco/bradesco_investimentos_extractor.py:125-138 | a movement's adapted cells: the file name, the date parsed back to the movement's date, the historico, the net value as `valor`, the client as `conta`, `BRADESCO INVESTIMENTOS` and no `tipo` |
| BradescoInv.MoveAdapted | src/parsers/bradesco/bradesco_inv_adapter.py:26-42 | with the intended filter, the adapted row of the i-th movement holds that movement's cells |
| BradescoInv.StandardMore | src/parsers/base_extractor.py:28-31 | `historico`, `conta` and `banco` are standard columns |
| BradescoInv.AdapterRows | src/parsers/bradesco/bradesco_inv_adapter.py:19-44 | on a readable statement with a row, the adapter as written returns a table exactly when a summary row is present, and that table has one row per movement, in order, with the file name, the parsed date, the historico, the net value as `valor`, the client as `conta`, the adapter's bank and no summary |
| BradescoInv.AdapterRowsIntended | src/parsers/bradesco/bradesco_inv_adapter.py:19-44 | on a readable statement with a row, the intended adapter always returns that table of one adapted row per movement, in order |
| BradescoInv.KeyErrorWithoutProducts | src/parsers/bradesco/bradesco_inv_adapter.py:28 | a statement with a movement and no product on its first page makes the adapter as written raise, while the intended adapter returns its table |
| BradescoInv.AgreeWithSummaries | src/parsers/bradesco/bradesco_inv_adapter.py:28 | once a summary is present, the adapter as written and the intended one give the same result |
| BradescoInv.ThousandsDropped | src/parsers/bradesco/bradesco_investimentos_extractor.py:93-98 | a movement amount with two separators, as `1.234,56`, does not convert, so it reads as 0 |
| Caixa.LabelledWithin | src/parsers/caixa/caixa_extractor.py:27-29 | the group of `label[:\s]*(k+)` can only capture characters of `k` |
| Caixa.SearchedWithin | src/parsers/caixa/caixa_extractor.py:27-36 | a field read by such a search is unchanged when nothing matches, and otherwise made only of characters of `k` |
| Caixa.HeaderLine | src/parsers/caixa/caixa_extractor.py:22-42 | in the `if`/`elif` order, a line naming CAIXA or CEF only sets the bank; agency and operation are digits and the account digits and dashes, read only from a line with `Agência` and `Op`; the period needs two dates on the line and sets both ends |
| Caixa.HeaderLines | src/parsers/caixa/caixa_extractor.py:22 | only the first twenty lines of a page are header lines |
| Caixa.SourcedGrow | src/parsers/caixa/caixa_extractor.py:22-42 | a header sourced from some lines stays sourced when more lines are seen |
| Caixa.HeaderLineSourced | src/parsers/caixa/caixa_extractor.py:22-42 | one header line keeps every set field sourced by a line that may set it |
| Caixa.ThreadSourced | src/parsers/caixa/caixa_extractor.py:22-42 | after any sequence of lines, every set field came from one of them that may set it |
| Caixa.PagesSourced | src/parsers/caixa/caixa_extractor.py:17-42 | the header after any pages was set only by lines among the first twenty of those pages |
| Caixa.ParseCaixaLine | src/parsers/caixa/caixa_extractor.py:184-221 | a line gives a transaction exactly when it matches the whole-line pattern and its date, amount and balance all convert; the description is stripped, the document empty, and the direction is credit exactly for a positive amount |
| Caixa.LineAmountReads | src/parsers/caixa/caixa_extractor.py:199-203 | an amount printed the Brazilian way reads back as itself, and is a credit exactly when positive |
| Caixa.LineTxn | src/parsers/caixa/caixa_extractor.py:176-180 | only a line starting with a full date is parsed, and its transaction carries the current header with its sign agreeing with its direction |
| Caixa.TableRows | src/parsers/caixa/caixa_extractor.py:45-172 | a table gives the shared mapped-column reader's transactions, in order, each with the current header |
| Caixa.Extract | src/parsers/caixa/caixa_extractor.py:10-182 | the extraction fails exactly when the file does not open or a page has no text |
| Caixa.StepExtends | src/parsers/caixa/caixa_extractor.py:17-180 | a page never removes the transactions collected before it |
| Caixa.PagesExtend | src/parsers/caixa/caixa_extractor.py:17-180 | the transactions of the first pages are a prefix of the document's |
| Caixa.LinesOnlyWhileEmpty | src/parsers/caixa/caixa_extractor.py:174-180 | as written, once the document has a transaction a page adds only its table rows; before that, a page without table rows is read line by line |
| Caixa.PagesAgree | src/parsers/caixa/caixa_extractor.py:45-180 | every transaction of the document has an amount whose sign agrees with its direction |
| Caixa.PagesSnoc | src/parsers/caixa/caixa_extractor.py:17-180 | one more page extends the scan by one page step |
| Caixa.ReadPage | src/parsers/caixa/caixa_extractor.py:45-172 | the table loop of a page gives every table's rows, in order |
| Caixa.ExtractTxns | src/parsers/caixa/caixa_extractor.py:16-182 | the page loop as written, whose line fallback runs only while nothing has been collected, computes the extraction, failing on the first page without text |
| Caixa.SecondPageUnread | src/parsers/caixa/caixa_extractor.py:174-180 | as written, a two-page statement without tables whose first page gives rows keeps only those, so rows on its second page are lost |
| Caixa.EveryPageRead | src/parsers/caixa/caixa_extractor.py:174-180 | with the fallback gated on the page's own tables (Caixa.PagesIntended), both pages of such a statement are read, in order |
| Caixa.ToRow | src/parsers/caixa/caixa_extractor.py:155-167 | a transaction's row has exactly the eleven keys of its dictionary |
| Caixa.TxnFrame | src/parsers/caixa/caixa_extractor.py:182 | one row per transaction, in order, with no columns when there are none |
| Caixa.ExtractStatement | src/parsers/caixa/caixa_extractor.py:182 | the table and the header are returned exactly when the extraction succeeds |
| Caixa.RowGet | src/parsers/caixa/caixa_extractor.py:155-167 | each cell of a row is that field of its transaction |
| Caixa.TxnCells | src/parsers/caixa/caixa_extractor.py:155-167 | a row holds the file name, the bank, `credit` exactly for a credit and the amount, with the amount's sign agreeing with `tipo` |
| Caixa.StatementRows | src/parsers/caixa/caixa_extractor.py:10-182 | every row of the table names the file and the bank, and its `valor` has the sign of its `tipo` |
| Caixa.RunExtractStatement | src/parsers/caixa/caixa_extractor.py:10-182 | the page loop followed by the DataFrame gives the extraction's result |
| CaixaGovConta.AfterWithin | src/parsers/caixa/caixa_govconta_extractor.py:25-35 | the group of `label\s*(k+)` can only capture characters of `k` |
| CaixaGovConta.FieldAfter | src/parsers/caixa/caixa_govconta_extractor.py:25-32 | a field read by such a search is unchanged when nothing matches, and otherwise made only of characters of `k` |
| CaixaGovConta.HeaderLine | src/parsers/caixa/caixa_govconta_extractor.py:24-43 | in the `if`/`elif` order, the GovConta number is digits and the reference account digits, slashes and dashes, each read only from a line with its label and none before it; the name only from a `Nome:` line; the period needs two dates and sets both ends |
| CaixaGovConta.HeaderLines | src/parsers/caixa/caixa_govconta_extractor.py:23 | only the first ten lines are header lines |
| CaixaGovConta.HeaderLineSourced | src/parsers/caixa/caixa_govconta_extractor.py:24-43 | one header line keeps every set field sourced by a line carrying its label |
| CaixaGovConta.ThreadSourced | src/parsers/caixa/caixa_govconta_extractor.py:23-43 | after any sequence of lines, every set field came from one of them carrying its label |
| CaixaGovConta.HeaderFromFirstPage | src/parsers/caixa/caixa_govconta_extractor.py:21-43 | the header comes only from the first ten lines of the first page, and later pages never change it |
| CaixaGovConta.HeaderFirst10 | src/parsers/caixa/caixa_govconta_extractor.py:23 | lines after the tenth never change the header lines |
| CaixaGovConta.Magnitude | src/parsers/caixa/caixa_govconta_extractor.py:66-67 | an amount that converts is never negative |
| CaixaGovConta.FromMatch | src/parsers/caixa/caixa_govconta_extractor.py:50-98 | a matched line gives a transaction exactly when its description has no `Saldo Atualizado`, its date exists and its amount and balance convert; the document and stripped description are its groups, the direction is debit exactly when the amount ends in `D`, the amount's size is the converted text and its sign agrees with the direction, and the balance is its magnitude |
| CaixaGovConta.ParseLine | src/parsers/caixa/caixa_govconta_extractor.py:46-98 | only a line matching the whole-line pattern gives a transaction, and none has `Saldo Atualizado` in its description |
| CaixaGovConta.DocumentDigits | src/parsers/caixa/caixa_govconta_extractor.py:48-53 | the document number of a transaction is a run of digits |
| CaixaGovConta.LineGroupsWithin | src/parsers/caixa/caixa_govconta_extractor.py:48 | the pattern's second group can only capture digits |
| CaixaGovConta.AmountReads | src/parsers/caixa/caixa_govconta_extractor.py:66-74 | an amount printed the Brazilian way with a `C` or `D` letter converts back to itself, and ends in `D` exactly for a `D` |
| CaixaGovConta.LineTxn | src/parsers/caixa/caixa_govconta_extractor.py:46-95 | a line gives a transaction exactly when it parses, and the transaction carries the header |
| CaixaGovConta.SkippedLine | src/parsers/caixa/caixa_govconta_extractor.py:97-98 | a line that does not parse is skipped and the lines around it give what they give on their own |
| CaixaGovConta.Extract | src/parsers/caixa/caixa_govconta_extractor.py:10-100 | the extraction fails exactly when the file does not open or a page has no text, and its header is the first page's |
| CaixaGovConta.TxnsSound | src/parsers/caixa/caixa_govconta_extractor.py:46-95 | every transaction has an amount whose sign agrees with its direction, no `Saldo Atualizado` in its description, and the document's header |
| CaixaGovConta.RowsSnoc | src/parsers/caixa/caixa_govconta_extractor.py:17-95 | one more page adds its line transactions at the end |
| CaixaGovConta.ExtractGovConta | src/parsers/caixa/caixa_govconta_extractor.py:16-100 | the page loop, reading the header on the first page only, computes the extraction |
| CaixaGovConta.KeysHave | src/parsers/caixa/caixa_govconta_extractor.py:81-93 | the dictionary has the transaction, header and bank keys, and no `conta` or `agencia` |
| CaixaGovConta.ToRow | src/parsers/caixa/caixa_govconta_extractor.py:81-93 | a transaction's row has exactly the eleven keys of its dictionary |
| CaixaGovConta.RowGet | src/parsers/caixa/caixa_govconta_extractor.py:81-93 | each cell of a row is that field of its transaction |
| CaixaGovConta.TxnCells | src/parsers/caixa/caixa_govconta_extractor.py:81-93 | a row holds the file name, the date written back as text, the description, the document, the signed amount, the balance, `credit` exactly for a credit, and the bank |
| CaixaGovConta.HeaderCells | src/parsers/caixa/caixa_govconta_extractor.py:89-91 | a row holds the header fields read, and '' for those not read |
| CaixaGovConta.TxnFrame | src/parsers/caixa/caixa_govconta_extractor.py:100 | one row per transaction, in order, with no columns when there are none |
| CaixaGovConta.ExtractStatement | src/parsers/caixa/caixa_govconta_extractor.py:100 | the table and the header are returned exactly when the extraction succeeds, one row per transaction |
| CaixaGovConta.RunExtractStatement | src/parsers/caixa/caixa_govconta_extractor.py:10-100 | the page loop followed by the DataFrame gives the extraction's result |
| CaixaAdapter.AdaptFrame | src/parsers/caixa/caixa_adapter.py:26-30 | an empty table is returned as it is; any other keeps its rows and gets every standard column |
| CaixaAdapter.AdapterExtract | src/parsers/caixa/caixa_adapter.py:19-32 | the adapter fails exactly when the extractor does and returns the extractor's header |
| CaixaAdapter.AdaptGet | src/parsers/caixa/caixa_adapter.py:26-30 | a column of a non-empty table after the adapter holds the file name in `arquivo` and otherwise its own cell, coerced |
| CaixaAdapter.AdaptMissing | src/parsers/caixa/caixa_adapter.py:30 | a standard column a row lacks is present and empty after the adapter |
| CaixaAdapter.AdaptedCell | src/parsers/caixa/caixa_adapter.py:23-30 | each cell of an adapted transaction row is the extractor's cell after naming the file and coercing |
| CaixaAdapter.AdaptedValues | src/parsers/caixa/caixa_adapter.py:23-30 | after the adapter a row holds the file name, the date as a calendar day, the description, the document, the signed amount and the balance as numbers, `credit` exactly for a credit, the bank and the GovConta number |
| CaixaAdapter.AdaptedAccount | src/parsers/caixa/caixa_adapter.py:30 | `conta` and `agencia`, which the extractor does not write, are present and empty |
| CaixaAdapter.StandardConta | src/parsers/base_extractor.py:28-31 | `conta` and `agencia` are standard columns |
| CaixaAdapter.AdapterRows | src/parsers/caixa/caixa_adapter.py:19-32 | a statement without transactions gives its empty table; otherwise one row per transaction with every standard column, each holding its transaction's adapted cells, an amount agreeing in sign with its direction and no balance-update line |
| CaixaAdapter.AdapterExtractStatement | src/parsers/caixa/caixa_adapter.py:19-32 | the adapter's steps give the adapter's result |
| Itau.HeaderPatternsWithin | src/parsers/itau/itau_extractor.py:26-32 | the agency group captures only digits and the account group only digits, `-` and `.` |
| Itau.HeaderLine | src/parsers/itau/itau_extractor.py:23-32 | a line naming the bank sets `banco` to the stripped line; otherwise an agency line may set `agencia` to digits and an account line `conta` to digits, `-` and `.`; no other field changes |
| Itau.HeaderLines | src/parsers/itau/itau_extractor.py:22 | the header is read from at most the first 15 lines of a page, a prefix of them |
| Itau.HeaderLineSourced | src/parsers/itau/itau_extractor.py:22-32 | reading one more header line keeps every field traceable to a line of its kind among the lines read |
| Itau.ThreadSourced | src/parsers/itau/itau_extractor.py:22-32 | after any run of header lines every field that was read comes from a line of its kind among them |
| Itau.LinePatternsWithin | src/parsers/itau/itau_extractor.py:59-100 | the number groups capture only digits, `.` and `,`, the document group only digits |
| Itau.Tokens | src/parsers/itau/itau_extractor.py:59 | no number found on a line contains `-` |
| Itau.TrimTail | src/parsers/itau/itau_extractor.py:71 | the result is a prefix of the description that ends in neither whitespace nor `-`, and only whitespace and `-` were cut |
| Itau.Documento | src/parsers/itau/itau_extractor.py:74-77 | the document number holds only digits |
| Itau.NextSaldo | src/parsers/itau/itau_extractor.py:96-106 | a balance read from the following line is never negative |
| Itau.Amount | src/parsers/itau/itau_extractor.py:59-83 | a line has an amount exactly when it has a number and `float` reads the last one the Brazilian way, and then the amount is that reading |
| Itau.RestTxn | src/parsers/itau/itau_extractor.py:59-94 | a transaction is a credit exactly when its description names a credit, a deposit or a sale; credits are non-negative and debits non-positive |
| Itau.RestAmount | src/parsers/itau/itau_extractor.py:59-94 | the text after the date gives a transaction exactly when it has an amount, and the value is that amount up to sign |
| Itau.RestFields | src/parsers/itau/itau_extractor.py:65-121 | the description is the text without its numbers, trailing dashes and document; the document, the balance of the next line, the date, the period and the header are carried over |
| Itau.LineTxnSpec | src/parsers/itau/itau_extractor.py:37-55 | a line gives a transaction only when it starts with `dd/mm`, is not a balance line and `dd/mm/year` is a date, and then gives what its text after the date gives |
| Itau.PeriodoIsDate | src/parsers/itau/itau_extractor.py:51-120 | a transaction's `periodo` is its date written as `%d/%m/%Y` |
| Itau.StrftimeOfText | src/parsers/itau/itau_extractor.py:51-111 | writing a date parsed from a `dd/mm/yyyy` text gives the text back |
| Itau.StrptimeFields | src/parsers/itau/itau_extractor.py:52 | parsing `dd/mm/y` reads the day and the month from their two digits and the year from `y` |
| Itau.Neighbours | src/parsers/itau/itau_extractor.py:37-99 | each line is paired with the next one, the last with none |
| Itau.PageRows | src/parsers/itau/itau_extractor.py:37-123 | a page gives at most one transaction per line |
| Itau.Extract | src/parsers/itau/itau_extractor.py:16-19 | extraction fails exactly when the PDF does not open or a page has no text |
| Itau.PagesBound | src/parsers/itau/itau_extractor.py:17-123 | there are never more transactions than lines |
| Itau.LineSound | src/parsers/itau/itau_extractor.py:37-121 | every transaction has the sign of its direction, is a credit exactly when its description says so, has a numeric document, a non-negative balance and `periodo` equal to its written date |
| Itau.PageSound | src/parsers/itau/itau_extractor.py:37-123 | every transaction of a page is sound |
| Itau.PagesSound | src/parsers/itau/itau_extractor.py:17-123 | every transaction of a document is sound |
| Itau.PagesSourced | src/parsers/itau/itau_extractor.py:14-32 | the returned header holds only fields read from header lines of the pages, each from a line of its kind |
| Itau.RemoveTokens | src/parsers/itau/itau_extractor.py:66-68 | the loop deletes every occurrence of each number in turn, as the description function does |
| Itau.ReadHistorico | src/parsers/itau/itau_extractor.py:65-78 | the step-by-step rewriting gives the description: numbers removed, trailing dashes and spaces cut, the document removed |
| Itau.ReadRest | src/parsers/itau/itau_extractor.py:59-123 | the statements give what the text after the date gives |
| Itau.ReadLine | src/parsers/itau/itau_extractor.py:38-123 | the loop body gives the line's transaction |
| Itau.ReadPage | src/parsers/itau/itau_extractor.py:37-123 | the line loop gives the page's transactions in order |
| Itau.PagesSnoc | src/parsers/itau/itau_extractor.py:17-123 | the pages are read one after another, in order |
| Itau.ExtractTxns | src/parsers/itau/itau_extractor.py:10-128 | the page loop gives the extraction's transactions and header |
| Itau.ToRow | src/parsers/itau/itau_extractor.py:109-121 | a transaction's dictionary has exactly the eleven keys |
| Itau.RowGet | src/parsers/itau/itau_extractor.py:109-121 | each key holds its field; a header field not yet read is `''` |
| Itau.TxnFrame | src/parsers/itau/itau_extractor.py:128 | one row per transaction, in order; no columns when there is none |
| Itau.ExtractStatement | src/parsers/itau/itau_extractor.py:10-128 | the statement fails exactly when extraction does and returns the header read |
| Itau.KeysHave | src/parsers/itau/itau_extractor.py:109-121 | the dictionary has `arquivo`, `data_movimento`, `valor`, `tipo`, `periodo`, `banco` and `saldo` |
| Itau.TxnCells | src/parsers/itau/itau_extractor.py:109-121 | a sound transaction's row names the file and the bank, says `credit` exactly for a credit, holds the signed amount, and has `periodo` equal to `data_movimento` |
| Itau.StatementRows | src/parsers/itau/itau_extractor.py:109-128 | every row of the table names the file and the bank, has `tipo` matching the sign of `valor`, and has `periodo` equal to `data_movimento` |
| Itau.RunExtractStatement | src/parsers/itau/itau_extractor.py:10-128 | the steps give the statement |
| ItauAdapter.AdapterExtract | src/parsers/itau/itau_adapter.py:19-32 | the adapter fails exactly when the extractor does and returns the extractor's header |
| ItauAdapter.AdaptedCell | src/parsers/itau/itau_adapter.py:23-30 | each cell of an adapted row is the extractor's cell after naming the file and coercing |
| ItauAdapter.AdaptedValues | src/parsers/itau/itau_adapter.py:26-30 | after the adapter the date is a calendar day, the amount a number, the balance a number or empty, and `periodo` is kept as text |
| ItauAdapter.AdaptedText | src/parsers/itau/itau_adapter.py:26-30 | the file name, description, document and direction come through unchanged |
| ItauAdapter.AdaptedBank | src/parsers/itau/itau_adapter.py:26-30 | every adapted row names the bank |
| ItauAdapter.AdaptedAccount | src/parsers/itau/itau_adapter.py:26-30 | the account and branch are those read so far, `''` when not read |
| ItauAdapter.KeysHaveHeader | src/parsers/itau/itau_extractor.py:109-121 | the dictionary has `historico`, `documento`, `conta` and `agencia` |
| ItauAdapter.AdapterRows | src/parsers/itau/itau_adapter.py:19-32 | a statement without transactions gives its empty table; otherwise one row per transaction with every standard column, each holding its adapted cells, and every transaction sound |
| ItauAdapter.AdapterExtractStatement | src/parsers/itau/itau_adapter.py:19-32 | the adapter's steps give the adapter's result |
| Generico.FirstHit | scripts_individuais/extrator_generico.py:107-114 | the index found is the first entry, in table order, for which the test holds; none is found exactly when no entry passes |
| Generico.GenericNotListed | scripts_individuais/extrator_generico.py:41-105 | no bank of the keyword table is the generic bank |
| Generico.FileNameWins | scripts_individuais/extrator_generico.py:106-110 | a bank named by the file name is chosen whatever the text says: the first such bank in table order |
| Generico.TextDecides | scripts_individuais/extrator_generico.py:111-114 | when no file-name keyword is present, the first bank whose text keywords occur is chosen |
| Generico.DetectGeneric | scripts_individuais/extrator_generico.py:106-116 | the generic bank is the answer exactly when no keyword of any bank occurs in the file name or the text |
| Generico.FileBankGeneric | scripts_individuais/extrator_generico.py:500-504 | after the Santander reclassification the bank is generic exactly when no keyword occurs and the first page lacks AGENCIA or CONTA |
| Generico.Lookup | scripts_individuais/extrator_generico.py:146 | a bank missing from the code table gets `''`; a non-empty code is the table's entry for that bank |
| Generico.First | scripts_individuais/extrator_generico.py:150-183 | a first group is returned exactly when the pattern is found |
| Generico.Between | scripts_individuais/extrator_generico.py:189-190 | a period is returned exactly when the pattern is found |
| Generico.Assign | scripts_individuais/extrator_generico.py:185-190 | bank and code are kept; a field whose pattern is absent keeps its value; a found account has no spaces |
| Generico.ItauMetadata | scripts_individuais/extrator_generico.py:153-169 | bank and code are kept; agency and account stay as they were when neither account pattern is found, and the period when neither period pattern is |
| Generico.Fill | scripts_individuais/extrator_generico.py:149-190 | whatever the branch, the bank and its code are left alone |
| Generico.ExtractMetadata | scripts_individuais/extrator_generico.py:118-192 | the bank keeps its name; its code is `''` when the table lacks it and is otherwise the table's code |
| Generico.BackShape | scripts_individuais/extrator_generico.py:11-35 | at most three parts, the stripped lines just before the start in page order, none a stopping line; fewer only when the page starts or a stopping line comes next |
| Generico.BackLoop | scripts_individuais/extrator_generico.py:14-31 | the backward walk, inserting at the front, gives the parts the definition gives |
| Generico.ConcatenateDescriptionLines | scripts_individuais/extrator_generico.py:11-35 | the parts joined by spaces, or "Operação Bancária" when there are none |
| Generico.BradescoLine | scripts_individuais/extrator_generico.py:215-243 | a row is a credit stamped with the current date or "01/01/2024" before any date, described by the lines above it; the date moves only on a dated line without an amount, which gives no row |
| Generico.SignedTxn | scripts_individuais/extrator_generico.py:247-332 | the amount is a magnitude, and the direction is 'D' exactly when the amount text starts with '-', else 'C' |
| Generico.OtherLine | scripts_individuais/extrator_generico.py:442-472 | a full-date line only moves the date; a row carries the current date and needs one, set by an earlier line or by this line's day and month |
| Generico.Indices | scripts_individuais/extrator_generico.py:209 | the indices of the page's lines, in order |
| Generico.ReadPage | scripts_individuais/extrator_generico.py:201-212 | one page: raising text fails, a page without text adds nothing, otherwise its lines are read in order |
| Generico.ExtractTransactionsAllPages | scripts_individuais/extrator_generico.py:194-475 | the page loop, carrying the date from page to page, gives the rows the definition gives |
| GenericoSound.SignedSound | scripts_individuais/extrator_generico.py:247-332 | an Itaú row has a non-negative amount and direction 'C' or 'D' |
| GenericoSound.BradescoSound | scripts_individuais/extrator_generico.py:215-243 | every Bradesco row has non-negative amount and balance and a C/D direction |
| GenericoSound.ItauSound | scripts_individuais/extrator_generico.py:245-353 | every row of the five Itaú layouts has non-negative amount and balance and a C/D direction |
| GenericoSound.PixSound | scripts_individuais/extrator_generico.py:335-353 | a PIX row is sound |
| GenericoSound.VortxSound | scripts_individuais/extrator_generico.py:355-389 | every Vortx credit and debit row is sound |
| GenericoSound.TrustSound | scripts_individuais/extrator_generico.py:391-410 | every Oliveira Trust row is sound |
| GenericoSound.BrasilSound | scripts_individuais/extrator_generico.py:412-440 | every Banco do Brasil row has a non-negative amount and a direction made of C and D |
| GenericoSound.OtherSound | scripts_individuais/extrator_generico.py:442-472 | every row of the generic branch has a non-negative amount and a direction made of C and D: the line's trailing D/C group, or 'C' when that group is empty |
| GenericoSound.LineSound | scripts_individuais/extrator_generico.py:204-472 | whatever the bank, every row one line gives is sound |
| GenericoSound.PageSound | scripts_individuais/extrator_generico.py:201-472 | every row one page gives is sound |
| GenericoSound.AllPagesSound | scripts_individuais/extrator_generico.py:194-475 | every row of the whole document is sound |
| GenericoMain.Firsts | scripts_individuais/extrator_generico.py:516-528 | the kept positions are positions of the input |
| GenericoMain.FirstsIncreasing | scripts_individuais/extrator_generico.py:516-528 | kept rows stay in input order |
| GenericoMain.FirstsAreFirst | scripts_individuais/extrator_generico.py:516-528 | a kept row is the first with its (date, description, amount) key |
| GenericoMain.FirstsComplete | scripts_individuais/extrator_generico.py:516-528 | the first row with each key is kept |
| GenericoMain.DedupKeys | scripts_individuais/extrator_generico.py:516-528 | kept keys are distinct and every input key is kept |
| GenericoMain.DedupLoop | scripts_individuais/extrator_generico.py:516-528 | the seen-set loop keeps what the definition keeps |
| GenericoMain.DedupRows | scripts_individuais/extrator_generico.py:516-528 | each kept row is an input transaction with the metadata attached |
| GenericoMain.ProcessFileSound | scripts_individuais/extrator_generico.py:477-535 | a file that gives a table has rows, distinct keys, and every row sound with the file's metadata |
| GenericoMain.ProcessFileRun | scripts_individuais/extrator_generico.py:495-535 | the file's steps in order give the file's outcome |
| Scripts.Defaults | scripts_individuais/extrator_bb.py:13-19 | a script's metadata starts with its bank name and code and every other field empty |
| Scripts.Keys | scripts_individuais/extrator_bb.py:60-71 | a dictionary has ten keys, or eleven with `Arquivo`, with `Banco`, `Conta`, `Data`, `Valor`, `Tipo` and `Saldo` in their insertion places |
| Scripts.Entry | scripts_individuais/extrator_bb.py:60-64 | a row copies the bank, code, branch and account of the metadata current when it is built |
| Scripts.SignTipo | scripts_individuais/extrator_itau.py:88-89 | the direction is `D` exactly when the amount text starts with a minus, `C` otherwise |
| Scripts.KeywordTipo | scripts_individuais/extrator_daycoval.py:88 | the direction is `D` exactly when the upper-cased description holds one of the debit words, `C` otherwise |
| Scripts.CommaTwoDecimals | scripts_individuais/extrator_bb.py:68 | the text `f"{valor:.2f}".replace('.', ',')` reads back, with the Brazilian convention, as exactly the amount written |
| Scripts.ReadPage | scripts_individuais/extrator_bb.py:38-46 | the line loop of a page returns what the fold over its lines gives: nothing for a page without text, `None` (an exception) when reading its text raises |
| Scripts.ReadPages | scripts_individuais/extrator_bb.py:37-71 | the page loop carries the state from page to page and returns the pages' rows in order, or `None` as soon as a page raises |
| Scripts.PagesAll | scripts_individuais/extrator_bb.py:37-71 | a property that every line's rows have holds of every row of the pass |
| Scripts.PagesBound | scripts_individuais/extrator_bb.py:37-71 | when a line emits at most one row, the pass emits no more rows than the pages with text have lines |
| Scripts.PagesGrow | scripts_individuais/extrator_daycoval.py:130-160 | when a line emits no more rows than it adds to a measure of the state, the whole pass does not either |
| Scripts.Guarded | scripts_individuais/extrator_bb.py:21-80 | an exception returns no rows; a file that does not open keeps the default metadata; otherwise the metadata is the defaults or what the first page's text fills in |
| Scripts.RunGuarded | scripts_individuais/extrator_bb.py:21-80 | the `try` block (first-page metadata, then every page) computes the guarded run |
| Scripts.GuardedAll | scripts_individuais/extrator_bb.py:21-80 | every row of a run satisfies what every line's rows satisfy for the metadata the run ends with |
| Scripts.GuardedBound | scripts_individuais/extrator_bb.py:21-80 | a run whose lines emit at most one row each has no more rows than its pages have lines |
| Scripts.LoggedCount | scripts_individuais/extrator_bb.py:12-79 | the log names the file and counts exactly the rows returned, whether or not an exception ended the run |
| Scripts.Emit | scripts_individuais/extrator_bb.py:60-71 | a line appends nothing or its one row |
| ScriptBb.Fill | scripts_individuais/extrator_bb.py:27-35 | only the branch and account change, each only where its pattern is found |
| ScriptBb.ReadLine | scripts_individuais/extrator_bb.py:44-71 | a line gives a row exactly when it is not a heading, the pattern is found and the amount converts |
| ScriptBb.ReadLineRow | scripts_individuais/extrator_bb.py:48-71 | the row holds the line's date, trimmed description and direction letter, and its `Valor` reads back as the amount on the line |
| ScriptBb.LineWithin | scripts_individuais/extrator_bb.py:48 | the amount group only ever holds digits, dots and commas, and the direction group only `C` or `D` |
| ScriptBb.ReadLineSound | scripts_individuais/extrator_bb.py:48-71 | every row a line gives has unaccented keys, the metadata's bank fields, no document, a `0,00` balance and a non-negative two-decimal amount |
| ScriptBb.ExtractBbData | scripts_individuais/extrator_bb.py:9-80 | the method computes the rows, metadata and log of `extract_bb_data` |
| ScriptBb.ExtractSound | scripts_individuais/extrator_bb.py:9-80 | every row returned is sound for the metadata read, there is at most one row per line of text, the log counts the rows, and only the branch and account differ from the defaults |
| ScriptCaixa.Fill | scripts_individuais/extrator_caixa.py:26-34 | only the account and period change, each only where its pattern is found |
| ScriptCaixa.MatchRow | scripts_individuais/extrator_caixa.py:50-74 | a match gives a row exactly when both its amount and its balance convert |
| ScriptCaixa.ReadLine | scripts_individuais/extrator_caixa.py:43-103 | headings give nothing; the pattern with a document wins when found, and then its numbers alone decide; otherwise the pattern without a document decides and the document is empty |
| ScriptCaixa.DocAmount | scripts_individuais/extrator_caixa.py:48 | the amount and balance groups of the pattern with a document only hold digits, dots and commas |
| ScriptCaixa.DocDirection | scripts_individuais/extrator_caixa.py:48 | the direction group of the pattern with a document is `C` or `D` |
| ScriptCaixa.SimpleAmount | scripts_individuais/extrator_caixa.py:78 | the amount and balance groups of the pattern without a document only hold digits, dots and commas |
| ScriptCaixa.SimpleDirection | scripts_individuais/extrator_caixa.py:78 | the direction group of the pattern without a document is `C` or `D` |
| ScriptCaixa.MatchRowOf | scripts_individuais/extrator_caixa.py:50-74 | the row holds the date, trimmed description and the amount's direction letter, and its amount and balance read back as the numbers on the line |
| ScriptCaixa.ReadLineSound | scripts_individuais/extrator_caixa.py:43-103 | every row a line gives has unaccented keys, the metadata's bank fields, and amount and balance that are non-negative two-decimal texts |
| ScriptCaixa.ExtractCaixaData | scripts_individuais/extrator_caixa.py:9-112 | the method computes the rows, metadata and log of `extract_caixa_data` |
| ScriptCaixa.ExtractSound | scripts_individuais/extrator_caixa.py:9-112 | every row returned is sound for the metadata read, there is at most one row per line of text, the log counts the rows, and only the account and period differ from the defaults |
| ScriptDaycoval.Fill | scripts_individuais/extrator_daycoval.py:27-40 | only the branch, account and period change, each only where its pattern is found |
| ScriptDaycoval.Make | scripts_individuais/extrator_daycoval.py:63-77 | a transaction gives a row exactly when its amount converts, and then the row carries the date, description, amount and direction given, no document and a 0.0 balance |
| ScriptDaycoval.Dated | scripts_individuais/extrator_daycoval.py:59-102 | a dated transaction line moves the current date to its own date exactly when its row is built |
| ScriptDaycoval.Undated | scripts_individuais/extrator_daycoval.py:116-160 | an undated row carries the current date and a description longer than three characters that does not start with `DATA` |
| ScriptDaycoval.Step | scripts_individuais/extrator_daycoval.py:53-160 | an empty line changes nothing; a row always carries the current date after the line; only a dated line or a date-only line moves the date; before the first date only a dated line gives a row |
| ScriptDaycoval.FullWithin | scripts_individuais/extrator_daycoval.py:59 | the amount group of the full-date pattern holds only digits, dots and commas, and its direction group only `C` or `D` |
| ScriptDaycoval.ShortWithin | scripts_individuais/extrator_daycoval.py:81 | the amount group of the short-date pattern holds only digits, dots and commas |
| ScriptDaycoval.CdWithin | scripts_individuais/extrator_daycoval.py:118 | the amount group of the undated pattern with a letter holds only digits, dots and commas, and its letter group only `C` or `D` |
| ScriptDaycoval.PlainWithin | scripts_individuais/extrator_daycoval.py:140 | the amount group of the undated pattern without a letter holds only digits, dots and commas |
| ScriptDaycoval.MakeSound | scripts_individuais/extrator_daycoval.py:66-77 | a row built from an amount without a minus and a direction of C/D letters has accented keys, the metadata's bank fields, no document, a 0.0 balance and a non-negative amount |
| ScriptDaycoval.StepSound | scripts_individuais/extrator_daycoval.py:53-160 | every row a line gives is sound for the metadata |
| ScriptDaycoval.BadAmountRaises | scripts_individuais/extrator_daycoval.py:59-74 | a full-date transaction line whose amount `float` refuses raises, whatever the current date |
| ScriptDaycoval.ExtractDaycovalData | scripts_individuais/extrator_daycoval.py:11-168 | the method computes the rows and metadata of `extract_daycoval_data`, with no current date before the first page |
| ScriptDaycoval.ExtractSound | scripts_individuais/extrator_daycoval.py:11-168 | every row returned is sound for the metadata read, there is at most one row per line of text, and only the branch, account and period differ from the defaults |
| ScriptSantander.Fill | scripts_individuais/extrator_santander.py:19-24 | only the branch and account change, each empty when its pattern is absent |
| ScriptSantander.FirstText | scripts_individuais/extrator_santander.py:19 | the text searched is empty for a file without pages, and the search raises exactly when the first page has no extracted text |
| ScriptSantander.CentsPieces | scripts_individuais/extrator_santander.py:53-55 | an amount with one comma is the piece before it, the comma and the piece after it |
| ScriptSantander.DropPieces | scripts_individuais/extrator_santander.py:55 | dropping the dots of the whole amount drops only those of the integer piece when the cents piece has none |
| ScriptSantander.SwapPieces | scripts_individuais/extrator_santander.py:55-57 | turning the only comma into a point joins the two pieces with a point |
| ScriptSantander.CleanBr | scripts_individuais/extrator_santander.py:51-59 | the amount cleaning agrees with the general Brazilian reading except where the two characters after the comma hold a dot |
| ScriptSantander.CleanNoMinus | scripts_individuais/extrator_santander.py:51-65 | the cleaning never introduces a minus, so an amount without one is a credit of its own magnitude |
| ScriptSantander.ReadLine | scripts_individuais/extrator_santander.py:33-81 | a row comes only from a non-empty line matching "date description amount" whose description is not a previous balance |
| ScriptSantander.ExtractSantanderTransactions | scripts_individuais/extrator_santander.py:9-84 | the method computes the rows and the log of `extract_santander_transactions`, or the exception that leaves it |
| ScriptSantander.ReadLineSound | scripts_individuais/extrator_santander.py:39-81 | every row carries the file name, the first page's branch and account, no document, a `0,00` balance, the direction `C` and a non-negative two-decimal amount |
| ScriptSantander.PassSound | scripts_individuais/extrator_santander.py:26-81 | every row of the page loop is sound |
| ScriptSantander.ExtractSound | scripts_individuais/extrator_santander.py:9-84 | a file that does not open raises; on return every row is sound, there is at most one row per line of text and the log counts the pages and the rows |
| ScriptSantanderPypdf2.Prefix | scripts_individuais/extrator_santander_pypdf2.py:51-52 | `s[:k]` is the first `k` characters for an index within the text, and never longer than the text |
| ScriptSantanderPypdf2.Tipo | scripts_individuais/extrator_santander_pypdf2.py:61-65 | the direction is `D` exactly when the description holds a minus and is not a card payment |
| ScriptSantanderPypdf2.RowOf | scripts_individuais/extrator_santander_pypdf2.py:44-81 | no amount gives no row; the balance is the second amount, or `0,00` when there is only one; every row is sound |
| ScriptSantanderPypdf2.Emitted | scripts_individuais/extrator_santander_pypdf2.py:58-81 | a row needs a description of at least three characters, keeps the balance text and takes the description's direction; with unsigned amounts it is sound |
| ScriptSantanderPypdf2.Step | scripts_individuais/extrator_santander_pypdf2.py:32-81 | the count grows by one exactly for a non-empty dated line that is not a previous balance, and only such a line gives a row |
| ScriptSantanderPypdf2.FirstText | scripts_individuais/extrator_santander_pypdf2.py:18 | the first page's text exists exactly when there is a page whose text was extracted |
| ScriptSantanderPypdf2.Extract | scripts_individuais/extrator_santander_pypdf2.py:9-83 | a result reports the number of pages of a file that has at least one |
| ScriptSantanderPypdf2.ExtractSantanderPypdf2 | scripts_individuais/extrator_santander_pypdf2.py:9-83 | the method computes the rows, page count and dated-line count, or the exception |
| ScriptSantanderPypdf2.Count | scripts_individuais/extrator_santander_pypdf2.py:110-111 | a count of one direction never exceeds the number of rows |
| ScriptSantanderPypdf2.LogFiles | scripts_individuais/extrator_santander_pypdf2.py:100-131 | the loop of `main` appends one log entry per file, in order, and every successful file's rows |
| ScriptSantanderPypdf2.AmountWithin | scripts_individuais/extrator_santander_pypdf2.py:44 | an amount found holds only digits, dots and commas |
| ScriptSantanderPypdf2.AmountsUnsigned | scripts_individuais/extrator_santander_pypdf2.py:44 | no amount found holds a minus sign |
| ScriptSantanderPypdf2.ReaderGrows | scripts_individuais/extrator_santander_pypdf2.py:37-39 | a line gives no more rows than it adds to the count of dated lines |
| ScriptSantanderPypdf2.PassSound | scripts_individuais/extrator_santander_pypdf2.py:25-81 | every row of the page loop is sound |
| ScriptSantanderPypdf2.ExtractSound | scripts_individuais/extrator_santander_pypdf2.py:9-83 | on return every row is sound for the first page's metadata, and there are no more rows than dated lines |
| ScriptSantanderPypdf2.CountSplit | scripts_individuais/extrator_santander_pypdf2.py:110-111 | rows that are all credits or debits split exactly into the two counts |
| ScriptSantanderPypdf2.FileLogSound | scripts_individuais/extrator_santander_pypdf2.py:102-131 | credits plus debits equal the rows extracted, which never exceed the dated lines read; a file that raised is logged with zeros, and only such a file is |
| ScriptSantanderPypdf2.LogsPerFile | scripts_individuais/extrator_santander_pypdf2.py:100-131 | a file that raises does not stop `main`: every file gets its own entry, in order |
| ScriptBv.Fill | scripts_individuais/extrator_bv.py:56-65 | only the account and period change, each only where its pattern is found |
| ScriptBv.Width | scripts_individuais/extrator_bv.py:25-36 | an output line uses one input line, or two when it absorbs the next, and never runs past the input |
| ScriptBv.Starts | scripts_individuais/extrator_bv.py:16-36 | the output lines start at kept input lines, in increasing order, without overlapping |
| ScriptBv.JoinedFrom | scripts_individuais/extrator_bv.py:16-36 | there is one output line per start, each the join of the lines at that start |
| ScriptBv.Covered | scripts_individuais/extrator_bv.py:16-36 | only empty lines are dropped: every non-empty input line is used by some output line |
| ScriptBv.Joined | scripts_individuais/extrator_bv.py:17-32 | an output line is at least as long as its stripped first line |
| ScriptBv.Concatenated | scripts_individuais/extrator_bv.py:11-38 | joining never adds lines, and every line it returns is non-empty |
| ScriptBv.ConcatenateBrokenLines | scripts_individuais/extrator_bv.py:11-38 | the `while` loop computes the joined lines |
| ScriptBv.JoinStep | scripts_individuais/extrator_bv.py:25-36 | one turn of the loop, at a kept line, appends the join starting there and continues after the lines the join used |
| ScriptBv.SignedRow | scripts_individuais/extrator_bv.py:116-158 | a row exists exactly when the cleaned amount without its minus converts; its direction is `D` exactly when the cleaned amount starts with a minus; the amount is non-negative and the balance 0.0 |
| ScriptBv.Undated | scripts_individuais/extrator_bv.py:112-158 | an undated row carries the current date and is sound; without a document its description is longer than five characters and does not hold `Página` |
| ScriptBv.Balance | scripts_individuais/extrator_bv.py:86-102 | a "Saldo do dia" line gives a credit whose balance is its amount exactly when the amount converts |
| ScriptBv.Step | scripts_individuais/extrator_bv.py:80-158 | skipped lines change nothing; a row carries the current date and is sound; only a balance line or a line starting with a date moves the date; before the first date only a balance line gives a row |
| ScriptBv.ReadPage | scripts_individuais/extrator_bv.py:71-158 | the line loop of one page, over its joined lines, computes the page's rows |
| ScriptBv.ReadPages | scripts_individuais/extrator_bv.py:68-158 | the page loop carries the current date from page to page and computes the pass |
| ScriptBv.ExtractBvData | scripts_individuais/extrator_bv.py:40-166 | the method computes the rows and metadata of `extract_bv_data` |
| ScriptBv.SaldoWithin | scripts_individuais/extrator_bv.py:86 | the amount group of the balance pattern holds only digits, dots and commas |
| ScriptBv.SaldoUnsigned | scripts_individuais/extrator_bv.py:86-89 | the amount of a "Saldo do dia" line has no minus sign |
| ScriptBv.BrFloatUnsigned | scripts_individuais/extrator_bv.py:89-99 | an amount without a minus reads as a non-negative number |
| ScriptBv.PassSound | scripts_individuais/extrator_bv.py:68-158 | every row of the pass is sound |
| ScriptBv.PageBound | scripts_individuais/extrator_bv.py:71-158 | a page emits at most one row per line of its text |
| ScriptBv.LinesBound | scripts_individuais/extrator_bv.py:80-158 | a line loop whose lines emit at most one row each emits no more rows than it has lines |
| ScriptBv.PassBound | scripts_individuais/extrator_bv.py:68-158 | joining never adds lines, so the pass has at most one row per line of text |
| ScriptBv.ExtractSound | scripts_individuais/extrator_bv.py:40-166 | every row returned is sound for the metadata read, there is at most one row per line of text, and only the account and period differ from the defaults |
| ScriptAbc.Fill | scripts_individuais/extrator_abc.py:25-40 | only the branch, account and period change, each only where its pattern is found |
| ScriptAbc.AllText | scripts_individuais/extrator_abc.py:43-47 | the joined text exists only when no page's text raises |
| ScriptAbc.JoinTexts | scripts_individuais/extrator_abc.py:43-47 | the loop over the pages computes the joined text |
| ScriptAbc.Letter | scripts_individuais/extrator_abc.py:76 | the direction is `D` exactly when the group is `D`, `C` otherwise |
| ScriptAbc.Read | scripts_individuais/extrator_abc.py:70-107 | five groups always give fields, shifted by one when the second group is all digits; four groups give fields exactly when the first holds two slashes; three give a credit with balance `0`; any other count gives none |
| ScriptAbc.Balance | scripts_individuais/extrator_abc.py:125 | a balance text `0` is 0.0 without conversion |
| ScriptAbc.MatchRow | scripts_individuais/extrator_abc.py:68-129 | a match gives a row exactly when its fields are read, pass the validation and both numbers convert, and the row holds those fields |
| ScriptAbc.RowsFirst | scripts_individuais/extrator_abc.py:65-132 | the rows are those of the first pattern that yields any, every earlier pattern yielding none; there are none exactly when no pattern yields any |
| ScriptAbc.RunCascade | scripts_individuais/extrator_abc.py:65-132 | the loop over the patterns, stopping after the first that yields, computes the rows |
| ScriptAbc.ExtractAbcData | scripts_individuais/extrator_abc.py:11-137 | the method computes the rows and metadata of `extract_abc_data` |
| ScriptAbc.ValidUnsigned | scripts_individuais/extrator_abc.py:113-123 | an amount that is digits once its points are gone never reads as negative |
| ScriptAbc.MatchRowSound | scripts_individuais/extrator_abc.py:109-126 | every row of a match has accented keys, the metadata's bank fields, a validated description, the direction `D` or `C` and a non-negative amount |
| ScriptAbc.PatternRowsSound | scripts_individuais/extrator_abc.py:65-129 | every row of every pattern is sound |
| ScriptAbc.ExtractSound | scripts_individuais/extrator_abc.py:11-137 | every row returned is sound for the metadata read; a run that ends normally returns the rows of the first pattern that yields over the joined text; only the branch, account and period differ from the defaults |
| ScriptSafra.MatchTxn | scripts_individuais/extrator_safra.py:42-80 | with a balance, the direction is `D` exactly when the amount starts with a minus and the amount is its non-negative magnitude; without one, the direction comes from the debit words and the balance is 0; a match whose number `float` refuses is skipped |
| ScriptSafra.ReadPattern | scripts_individuais/extrator_safra.py:39-80 | the loop over one pattern's matches collects their transactions in order |
| ScriptSafra.ReadPage | scripts_individuais/extrator_safra.py:38-83 | the pattern loop of a page stops after the first pattern once some transaction exists, and after the first pattern that yields otherwise |
| ScriptSafra.ExtractSafraData | scripts_individuais/extrator_safra.py:11-89 | the page loop computes the transactions of `extract_safra_data`, and none when the file does not open |
| ScriptSafra.PageFirst | scripts_individuais/extrator_safra.py:38-83 | once a transaction exists a page adds the first pattern's matches only; before that it adds those of the first pattern that yields, every earlier one yielding none, and nothing exactly when none yields |
| ScriptSafra.AmountsWithin | scripts_individuais/extrator_safra.py:31-35 | the amount groups of the patterns without a balance hold only digits, dots and commas |
| ScriptSafra.ThreeSound | scripts_individuais/extrator_safra.py:62-77 | a pattern without a balance whose amount group is unsigned yields credits or debits with non-negative amounts |
| ScriptSafra.FourSound | scripts_individuais/extrator_safra.py:46-61 | the pattern with a balance yields credits or debits with non-negative amounts |
| ScriptSafra.PatternSound | scripts_individuais/extrator_safra.py:29-80 | every pattern of the cascade yields sound transactions |
| ScriptSafra.PageSound | scripts_individuais/extrator_safra.py:28-83 | every transaction a page adds is sound |
| ScriptSafra.TxnsSound | scripts_individuais/extrator_safra.py:18-83 | every transaction of the document is a credit or debit with a non-negative amount |
| ScriptSafra.NextPage | scripts_individuais/extrator_safra.py:18-83 | a page whose text raises or is empty adds nothing, and after the first transaction a page adds exactly the first pattern's matches |
| ScriptSafra.DebitMagnitude | scripts_individuais/extrator_safra.py:49-53 | for an amount with one leading minus, the transaction is a debit whose amount is the negation of the signed reading |
| ScriptBradesco.Fill | scripts_individuais/extrator_bradesco.py:53-65 | only the branch, account and period change; the branch and account both come from one match and stay as they were without it, and the period stays without its pattern |
| ScriptBradesco.DescriptionShape | scripts_individuais/extrator_bradesco.py:11-35 | the fallback text is used exactly when the walk stops at once; otherwise one to three stripped lines are joined, the last of them the line at the start |
| ScriptBradesco.SharedWalk | scripts_individuais/extrator_bradesco.py:11-35 | this walk and the generic extractor's give the same description where they find lines, and each its own fallback where they find none |
| ScriptBradesco.ConcatenateDescriptionLines | scripts_individuais/extrator_bradesco.py:11-35 | the backward `while` loop computes the description |
| ScriptBradesco.Credit | scripts_individuais/extrator_bradesco.py:86-107 | a match gives a credit exactly when both numbers convert, holding the document, the description of the lines above, the date and the two numbers |
| ScriptBradesco.Step | scripts_individuais/extrator_bradesco.py:78-114 | an empty line changes nothing; only a transaction line raises; a transaction keeps the date, uses `01/01/2024` before the first date, and is a sound credit; the date moves only on a line with a date and no amount |
| ScriptBradesco.ExtractBradescoData | scripts_individuais/extrator_bradesco.py:37-122 | the method computes the rows and metadata of `extract_bradesco_data` |
| ScriptBradesco.ExtractSound | scripts_individuais/extrator_bradesco.py:37-122 | every row returned is a sound credit for the metadata read, there is at most one row per line of text, and only the branch, account and period differ from the defaults |
| ScriptItau.Primary | scripts_individuais/extrator_itau.py:30-34 | the `Agência/Conta:` pattern sets both branch and account from one match, and changes nothing when absent |
| ScriptItau.Secondary | scripts_individuais/extrator_itau.py:36-43 | only while the branch is empty, `Ag:` and `Conta:` each set their field on their own, each left as it was when absent |
| ScriptItau.Monthly | scripts_individuais/extrator_itau.py:45-50 | only while the branch is still empty, the monthly `ag ... cc ...` sets both fields from one match |
| ScriptItau.Period | scripts_individuais/extrator_itau.py:52-62 | only the period changes, and it stays as it was when none of the three period patterns is found |
| ScriptItau.Fill | scripts_individuais/extrator_itau.py:27-62 | only the branch, account and period change |
| ScriptItau.SignedRow | scripts_individuais/extrator_itau.py:86-101 | a row exists exactly when the amount without its minus converts; its direction is `D` exactly when the amount starts with a minus; it has accented keys, a non-negative amount and a 0.0 balance |
| ScriptItau.CommaRow | scripts_individuais/extrator_itau.py:111-127 | the second layout's row exists exactly when the amount converts, has unaccented keys, a two-decimal comma amount and the balance `0,00` |
| ScriptItau.Keep | scripts_individuais/extrator_itau.py:89-103 | a line that keeps the date gives its row, or raises when the row's amount does not convert |
| ScriptItau.Step | scripts_individuais/extrator_itau.py:75-103 | a skipped line changes nothing; the first layout, when found, decides the line; otherwise the later layouts are tried; every row is sound |
| ScriptItau.Numbered | scripts_individuais/extrator_itau.py:105-128 | the second layout, when found, decides the line with a comma-written row; otherwise the later layouts are tried |
| ScriptItau.Short | scripts_individuais/extrator_itau.py:130-157 | the third layout keeps the date; a description shorter than five or naming a balance, total, statement or page gives nothing; a row holds the line's date and description |
| ScriptItau.Full | scripts_individuais/extrator_itau.py:159-184 | the fourth layout keeps the date; a description shorter than five gives nothing; a row holds the line's date and description |
| ScriptItau.Dated | scripts_individuais/extrator_itau.py:186-190 | a line starting with a full date that no layout took moves the current date to it and gives nothing |
| ScriptItau.Pix | scripts_individuais/extrator_itau.py:192-215 | a PIX line gives, exactly when its amount converts, a credit dated with the clock's year, documented `PIX` and described `PIX QRS` and the name |
| ScriptItau.Undated | scripts_individuais/extrator_itau.py:217-244 | only once a date is known, a row carries that date and needs a description longer than ten before stripping, a line not starting with a digit, and no balance, total or statement word; the date never moves |
| ScriptItau.ExtractItauData | scripts_individuais/extrator_itau.py:11-252 | the method computes the rows and metadata of `extract_itau_data` |
| ScriptItau.ReaderSound | scripts_individuais/extrator_itau.py:75-244 | every row a line gives is sound for the metadata |
| ScriptItau.ExtractSound | scripts_individuais/extrator_itau.py:11-252 | every row returned is sound for the metadata read, there is at most one row per line of text, and only the branch, account and period differ from the defaults |
| ScriptItau.DateOnlyMoves | scripts_individuais/extrator_itau.py:80-218 | a line starting with a full date that fits none of the first four layouts only moves the date; before any date no undated line gives a row |
| Improved.Bare | obsoleto/improved_extractor.py:171-175 | the text the amount is read from never holds a minus sign |
| Improved.ParseValue | obsoleto/improved_extractor.py:165-189 | an empty text and a text `float` refuses read as 0; otherwise the magnitude is what the unsigned text reads as, negative only when a leading `-` or `(` marks it and non-negative otherwise |
| Improved.ReplaceAbsent | obsoleto/improved_extractor.py:171 | removing `R$` from a text without an `R` changes nothing |
| Improved.BodyChars | obsoleto/improved_extractor.py:177-183 | a Brazilian rendering is the grouped units, a comma and two digits; it starts and ends with a digit and holds only digits, dots and commas |
| Improved.DropsAbsent | obsoleto/improved_extractor.py:171-175 | removing blanks, signs and parentheses from a rendering changes nothing |
| Improved.CleanedKeeps | obsoleto/improved_extractor.py:171 | a text without blanks at its ends, `R$` or inner blanks is its own cleaning |
| Improved.SignedChars | obsoleto/improved_extractor.py:171-175 | a signed rendering has no blanks or `R`, starts with `-` exactly when it is signed, and loses only its sign to the minus removal |
| Improved.CleanBare | obsoleto/improved_extractor.py:175 | a text that is its own cleaning has as bare text the text without its signs |
| Improved.BareSigned | obsoleto/improved_extractor.py:174-175 | the bare text of a rendering is the rendering of its magnitude, and the rendering is marked negative exactly when the amount is |
| Improved.ParseShowBr | obsoleto/improved_extractor.py:165-189 | every amount written in the Brazilian convention, with a leading minus when negative, reads back as itself |
| Improved.ParenthesisedText | obsoleto/improved_extractor.py:171-174 | a parenthesised rendering is its own cleaning and starts with `(` |
| Improved.Unparenthesise | obsoleto/improved_extractor.py:175 | removing the parentheses gives back the text inside them |
| Improved.BareParenthesised | obsoleto/improved_extractor.py:174-175 | a parenthesised rendering is marked negative and its bare text is the rendering |
| Improved.ParseParenthesised | obsoleto/improved_extractor.py:165-189 | an amount in parentheses, `(1.234,56)`, reads as its negation |
| Improved.ThousandsChars | obsoleto/improved_extractor.py:160 | a grouped integer part holds only digits, dots and commas |
| Improved.MoneyIff | obsoleto/improved_extractor.py:153-163 | a text looks like money exactly when its stripped text is non-empty digits, dots and commas, so the other two patterns add nothing |
| Improved.Found | obsoleto/improved_extractor.py:31 | `findall` gives one number per match, in order |
| Improved.Holder | obsoleto/improved_extractor.py:50-54 | the holder is the words from a word that does not start with a digit and is longer than three; there is none exactly when no word qualifies |
| Improved.HolderLoop | obsoleto/improved_extractor.py:51-54 | the loop that breaks at the first qualifying word computes the holder |
| Improved.BankName | obsoleto/improved_extractor.py:25-26 | only the bank's name changes, to the stripped line exactly when it names a bank |
| Improved.AccountFields | obsoleto/improved_extractor.py:29-36 | only the branch and account change: the branch to the first number of a line naming `AG`, the account to the last number of a line naming `CONTA` |
| Improved.Period | obsoleto/improved_extractor.py:39-45 | only the period changes; its end changes only with both dates set, and a start it sets is a valid date |
| Improved.AccountHolder | obsoleto/improved_extractor.py:48-54 | only the holder changes, and only on a line naming the holder |
| Improved.HeaderLine | obsoleto/improved_extractor.py:21-54 | one line updates the branch, account and bank name as its parts say and never the balances |
| Improved.FirstLines | obsoleto/improved_extractor.py:19 | the header is read from at most fifteen lines |
| Improved.ExtractHeaderInfo | obsoleto/improved_extractor.py:15-56 | the loop over the first fifteen lines computes the header |
| Improved.AgencyLine | obsoleto/improved_extractor.py:21-34 | the branch is that of the last line giving one, and missing exactly when no line gives one |
| Improved.AccountLine | obsoleto/improved_extractor.py:21-36 | the account is that of the last line giving one, and missing exactly when no line gives one |
| Improved.NoBalances | obsoleto/improved_extractor.py:15-56 | the header never holds an initial or final balance |
| Improved.MapColumns | obsoleto/improved_extractor.py:66-85 | every mapped index is a cell of the header |
| Improved.MappedNamed | obsoleto/improved_extractor.py:69-85 | a mapped key sits at a cell that names it |
| Improved.MappedLast | obsoleto/improved_extractor.py:69-85 | when several cells name a key the last one wins |
| Improved.NamedMapped | obsoleto/improved_extractor.py:69-85 | every key some header cell names is mapped |
| Improved.MapColumnsLoop | obsoleto/improved_extractor.py:66-85 | the loop over the header's cells computes the mapping with the source's order of tests |
| Improved.At | obsoleto/improved_extractor.py:97 | a cell is read, stripped, exactly when its index is within the row; a missing index raises |
| Improved.DateOf | obsoleto/improved_extractor.py:98-99 | a date is read only from a cell starting with a full date, and it is a valid date |
| Improved.Movement | obsoleto/improved_extractor.py:93-101 | without a movement column the date is the clock's; with one, a row whose cell is missing or not a full date is skipped, and otherwise the date is the cell's |
| Improved.BalanceDate | obsoleto/improved_extractor.py:104-107 | a balance date read is a valid date |
| Improved.Document | obsoleto/improved_extractor.py:114-118 | a kept document is non-empty and not amount-like; only a missing index raises |
| Improved.Mapped | obsoleto/improved_extractor.py:122-140 | a mapped amount text is non-empty; only a missing index raises |
| Improved.MoneyCell | obsoleto/improved_extractor.py:129-134 | the cell found is the first non-empty cell that looks like money, and none is found only when no cell does |
| Improved.FindMoneyCell | obsoleto/improved_extractor.py:129-134 | the loop that breaks at the first money cell computes it |
| Improved.Value | obsoleto/improved_extractor.py:120-134 | the amount comes from its column when that cell is non-empty, else from the first cell that looks like money; only a missing index raises |
| Improved.RowTxn | obsoleto/improved_extractor.py:88-149 | a row shorter than three or without a valid movement date is skipped; a transaction holds the row's movement date, amount, balance date, description and document, and is a credit exactly when its amount is positive |
| Improved.Transactions | obsoleto/improved_extractor.py:58-151 | a table of fewer than two rows gives nothing; otherwise the kept rows after the header, in order |
| Improved.ExtractTransactionsFromTable | obsoleto/improved_extractor.py:58-151 | the method computes the table's transactions |
| Improved.TableSound | obsoleto/improved_extractor.py:58-151 | there is at most one transaction per row after the header; each is a credit exactly when its amount is positive, keeps no amount-like document, and holds dates that exist |
| Scan.ThreadLast | obsoleto/improved_extractor.py:21-36 | the field a fold sets from its lines is that of the last line that sets it, and is unchanged when none does |
| Numbers.Negated | scripts_individuais/extrator_itau.py:86-89 | an amount with one leading minus and no other sign converts exactly when it does without the minus, and reads then as the negation of its magnitude |

## Left out

- Reading PDFs (pdfplumber, PyPDF2, fitz): the page texts and the tables of optional cells are inputs of the model.
- Floating point: amounts are integer cents; digits after the second decimal place are dropped toward zero, so `float` rounding is not modelled.
- In the Bradesco investment statement, share quantities and unit values are held in hundredths like amounts, so their further decimals are dropped.
- `datetime.now().year` is a parameter of every extractor that completes a short date.
- `strptime` accepts only the `%d/%m/%Y` form with ASCII digits; locale, Unicode digits and `\d` over non-ASCII digits are not modelled.
- `str.upper()` maps ASCII letters and the accented Latin-1 letters used in the source's keywords; full Unicode case mapping is not modelled.
- Regular-expression search in the bank detector is a parameter: its patterns hold doubled backslashes, so their meaning would add nothing.
- pandas' sort is stated as ordered-and-a-permutation; which of several equal rows comes first (stability) is not modelled. NaN cells are a single `Null` cell.
- Exception messages are not modelled: a raised exception is an `Err` or a `Raised` outcome without its text.
- Console output, Excel and CSV writing, globbing a folder and creating directories: the `main()` bodies keep only the pure pieces named in the table.
- `save_results` in src/core/universal_extractor.py is modelled only for its sheet-name rule.
- The `exec(open(...).read())` loading in the adapters is a direct call of the extractor function.
- The Caixa adapter loads the GovConta extractor, so `extract_caixa_statement` is modelled on its own and nothing else uses it.
- In both Caixa extractors the statement period is kept as the text of its two dates, as the source stores it.
- In `extrator_generico.py` the case-insensitive month search is a search over the lower-cased text; the sort by date, the column reordering and the Excel file written by `main` are not modelled, and a file's outcome is its deduplicated rows with their metadata.
- In `extrator_generico.py` the Vortx credit pattern's two adjacent literals are regrouped; the language it matches is the same.
- GenericoSound.BrasilSound: states that a Banco do Brasil direction is made of C and D characters, not that it has exactly one.
- ScriptBb.ExtractSound, ScriptCaixa.ExtractSound and ScriptDaycoval.ExtractSound: state that a direction is made of C and D characters, not that it is exactly one letter.
- ScriptItau.Period and ScriptItau.Fill: state which fields change and when nothing changes, not which of the priority patterns supplies the value.
- ScriptAbc.Read: that a short-date match (four groups) never reaches the row is not proved from the pattern; the contract states the group-count dispatch only.
- ScriptBv.Covered: states that every non-empty line is used by some output line, through a witness index, not the exact pairing of absorbed lines.
- Numbers.Negated and ScriptSafra.DebitMagnitude: stated for an amount text with one leading minus; that the amount patterns allow a sign only in front is not proved.
- In `obsoleto/improved_extractor.py` the anchored single-class patterns of `_looks_like_money` and of the document-number test are character predicates rather than regular expressions.
- The clock is a parameter: the year in the Itaú PIX layout and today's date in the table-first extractor.
- The standalone scripts' `main()` functions (globbing, console, CSV and Excel, reports) are not modelled, apart from the per-file log of the PyPDF2 Santander script, whose error message text is not modelled.
- `str.isdigit` is taken as the ASCII digits.
- Numbers.Float: reads an optional sign and a decimal numeral with at most one point, after stripping white space; Python's `float` also accepts exponent forms (`1e3`), `inf`, `nan` and digit underscores (`1_000`), which the model reads as `None`.
- Improved.ParseValue: built on Numbers.Float, so a cell such as `1e3`, `inf` or `1_000` reads as 0 where the source gives its float value.
- Text.IsAlnum and Text.IsLetter: `str.isalnum` and `\w` are modelled over ASCII and Latin-1 only; letters and digits beyond U+00FF (such as `Ł`) count as neither, which affects `\w` in the regular-expression model.
- Universal.SheetName: keeps letters and digits of ASCII and Latin-1 and `_`; a letter beyond U+00FF (such as `Ł`), which `str.isalnum` keeps, is dropped.
- GenericoSound.OtherSound: states that the direction is the trailing D/C group or 'C' and is made of C and D, not that the group is at most one letter long.
- BradescoInv.AdaptFrameIntended, BradescoInv.IntendedRows, BradescoInv.MoveAdapted, BradescoInv.AdapterExtractIntended and BradescoInv.AdapterRowsIntended: describe the adapter with the summary filter as intended; the adapter as written (BradescoInv.AdaptFrame, BradescoInv.AdapterExtract) raises on a non-empty table without `tipo`, and returns these tables otherwise.
- Caixa.PagesIntended and Caixa.EveryPageRead: describe the page scan with the line fallback gated on the page's own tables; Caixa.Extract and Caixa.ExtractTxns follow the source, whose fallback runs only while nothing has been collected.

## Findings

| source | as written | input that shows it | evidently intended | confidence | as-written member | corrected member |
|---|---|---|---|---|---|---|
| src/parsers/bradesco/bradesco_inv_adapter.py:28 | `df[df.get('tipo', '') != 'resumo_investimento']`: without a `tipo` column the comparison is the single value `True` and `df[True]` raises `KeyError` | an investment statement with a movement table and no `Produto … C.N.P.J` line on its first page (no product summary, so no `tipo` column) | drop the summary rows, keeping every movement when there is none | not executed | BradescoInv.KeyErrorWithoutProducts (on BradescoInv.AdapterExtract) | BradescoInv.AdapterRowsIntended (on BradescoInv.AdapterExtractIntended) |
| src/parsers/caixa/caixa_extractor.py:174-180 | the line-by-line fallback runs only while the whole document has no transaction | a two-page statement without tables whose pages both hold transaction lines: the second page's lines are never read | read a page line by line when that page's tables give nothing | not executed | Caixa.SecondPageUnread (on Caixa.Pages, which Caixa.Extract uses) | Caixa.EveryPageRead (on Caixa.PagesIntended) |
