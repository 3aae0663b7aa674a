/**
 * `ExtractorFactory.create_extractor`: which extraction strategy runs for a
 * detected bank. Five banks have their own adapter, four share the enhanced
 * generic extractor under their registered name, and every other bank,
 * `Unknown` included, falls back to the smart generic extractor.
 */
module Factory {
  import opened BankDetector

  /** The extractor objects the factory can build, without the file path they all carry. */
  datatype Strategy =
    | BbAdapter
    | BradescoCcAdapter
    | BradescoInvAdapter
    | ItauAdapter
    | CaixaAdapter
    | Enhanced(bankName: string)
    | GenericSmart

  /** The banks with an adapter of their own. */
  predicate Dedicated(b: Bank)
  {
    b == BancoDoBrasil || b == Bradesco || b == BradescoInvestimentos || b == Itau || b == Caixa
  }

  /** The banks the enhanced generic extractor knows a layout for. */
  predicate EnhancedBank(b: Bank)
  {
    b == Safra || b == Daycoval || b == Bv || b == Citi
  }

  /** `create_extractor`: one branch per case, the last one catching every other bank. */
  function CreateExtractor(b: Bank): (s: Strategy)
    ensures s.Enhanced? <==> EnhancedBank(b)
    ensures s == GenericSmart <==> !Dedicated(b) && !EnhancedBank(b)
    ensures Dedicated(b) <==> !s.Enhanced? && s != GenericSmart
    ensures s.Enhanced? ==> s.bankName == GetBankInfo(b).name
  {
    if b == BancoDoBrasil then BbAdapter
    else if b == Bradesco then BradescoCcAdapter
    else if b == BradescoInvestimentos then BradescoInvAdapter
    else if b == Itau then ItauAdapter
    else if b == Caixa then CaixaAdapter
    else if EnhancedBank(b) then Enhanced(GetBankInfo(b).name)
    else GenericSmart
  }

  /** Different dedicated banks get different adapters, so no adapter serves two of them. */
  lemma DedicatedDistinct(a: Bank, b: Bank)
    requires Dedicated(a) && Dedicated(b) && a != b
    ensures CreateExtractor(a) != CreateExtractor(b)
  {
  }

  /** The enhanced extractor is told which of its four banks it reads, by a name unique to that bank. */
  lemma EnhancedDistinct(a: Bank, b: Bank)
    requires EnhancedBank(a) && EnhancedBank(b) && a != b
    ensures CreateExtractor(a) != CreateExtractor(b)
  {
    assert |GetBankInfo(a).name| != |GetBankInfo(b).name|;
  }
}
