/** Unweighted investor mining with JSON output (src/apriori_unweighted.py). */
module AprioriUnweighted {
  import opened Basics
  import opened Preprocess
  import opened Mining
  import opened MultiLevelApriori

  /** run_apriori_unweighted: mines the investor table and formats both result tables. */
  function RunAprioriUnweighted(rows: seq<Row>, minSupport: real, minConfidence: real, miner: Miner): (o: AprioriOutput)
    ensures var freq := miner.apriori(Flags(InvestorTable(rows)), minSupport);
      && o.itemsets == FormatItemsets(freq)
      && o.rules == FormatRules(miner.associationRules(freq, minConfidence))
  {
    var freq := miner.apriori(Flags(OneHot(InvestorLists(rows))), minSupport);
    var rules := miner.associationRules(freq, minConfidence);
    AprioriOutput(FormatItemsets(freq), FormatRules(rules))
  }

  /** The unweighted apriori function formats exactly what the investor-to-investor level mines. */
  lemma UnweightedIsInvestorLevel(rows: seq<Row>, minSupport: real, minConfidence: real, miner: Miner)
    ensures var m := InvestorInvestorApriori(rows, minSupport, minConfidence, miner);
      RunAprioriUnweighted(rows, minSupport, minConfidence, miner) == AprioriOutput(FormatItemsets(m.freq), FormatRules(m.rules))
  {
  }
}
