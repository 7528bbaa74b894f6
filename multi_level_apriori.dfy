/**
 * Two levels of co-investment mining (src/multi_level_apriori.py): investors that
 * invest together (one transaction per funding row), and startups that share
 * investors (one transaction per investor, over the transposed table).
 */
module MultiLevelApriori {
  import opened Basics
  import opened Preprocess
  import opened Mining

  /** The raw miner tables, as the two functions return them. */
  datatype Mined = Mined(freq: seq<FrequentRow>, rules: seq<RuleRow>)

  /**
   * The investor table: one row per funding row, one column per distinct investor,
   * a cell true exactly when that investor is in the row's investor list.
   */
  function InvestorTable(rows: seq<Row>): (f: Frame<bool>)
    ensures NoDup(f.columns) && Elems(f.columns) == Vocabulary(InvestorLists(rows))
    ensures |f.cells| == |rows| && Rectangular(f)
    ensures forall i, c :: 0 <= i < |rows| && 0 <= c < |f.columns| ==>
      (f.cells[i][c] <==> f.columns[c] in rows[i].investors)
  {
    OneHot(InvestorLists(rows))
  }

  /** investor_investor_apriori: mines the investor table; the rules come from exactly those itemsets. */
  function InvestorInvestorApriori(rows: seq<Row>, minSupport: real, minConfidence: real, miner: Miner): (m: Mined)
    ensures m.freq == miner.apriori(Flags(InvestorTable(rows)), minSupport)
    ensures m.rules == miner.associationRules(m.freq, minConfidence)
  {
    var freq := miner.apriori(Flags(InvestorTable(rows)), minSupport);
    Mined(freq, miner.associationRules(freq, minConfidence))
  }

  /**
   * The startup table (`oht.T` with the startup names as index): one row per
   * distinct investor, one column per funding row labelled with its startup name,
   * a cell true exactly when the investor is in that row's investor list.
   */
  function StartupTable(rows: seq<Row>): (f: Frame<bool>)
    ensures f.columns == StartupNames(rows)
    ensures |f.cells| == |InvestorTable(rows).columns| && Rectangular(f)
    ensures forall v, j :: 0 <= v < |f.cells| && 0 <= j < |rows| ==>
      (f.cells[v][j] <==> InvestorTable(rows).columns[v] in rows[j].investors)
  {
    Transpose(StartupNames(rows), InvestorTable(rows))
  }

  /** Every investor's transaction in the startup table names at least one startup. */
  lemma StartupTableRowsUsed(rows: seq<Row>, v: nat)
    requires v < |StartupTable(rows).cells|
    ensures exists j :: 0 <= j < |rows| && StartupTable(rows).cells[v][j]
  {
    OneHotColumnsUsed(InvestorLists(rows), v);
    var j :| 0 <= j < |rows| && InvestorTable(rows).cells[j][v];
    assert StartupTable(rows).cells[v][j];
  }

  /** The startup table, transposed back, is the investor table. */
  lemma StartupTableTransposesBack(rows: seq<Row>)
    ensures Transpose(InvestorTable(rows).columns, StartupTable(rows)) == InvestorTable(rows)
  {
    TransposeTwice(StartupNames(rows), InvestorTable(rows));
  }

  /** startup_startup_apriori: mines the startup table; the rules come from exactly those itemsets. */
  function StartupStartupApriori(rows: seq<Row>, minSupport: real, minConfidence: real, miner: Miner): (m: Mined)
    ensures m.freq == miner.apriori(Flags(StartupTable(rows)), minSupport)
    ensures m.rules == miner.associationRules(m.freq, minConfidence)
  {
    var freq := miner.apriori(Flags(StartupTable(rows)), minSupport);
    Mined(freq, miner.associationRules(freq, minConfidence))
  }
}
