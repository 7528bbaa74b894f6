/**
 * The dashboard summary of a cleaned frame (src/insights.py): counts, the most
 * frequent investors, domains and startups, and both levels of itemset mining.
 */
module Insights {
  import opened Basics
  import opened Text
  import opened Preprocess
  import opened Counting
  import opened Mining
  import opened MultiLevelApriori

  /** n_startups is the number of funding rows; n_unique_investors the number of distinct names. */
  datatype Stats = Stats(nStartups: nat, nUniqueInvestors: nat)

  datatype Summary = Summary(
    stats: Stats,
    topCo: seq<Entry>,
    topDomains: seq<Entry>,
    topStartups: seq<Entry>,
    investorLevel: Mined,
    startupLevel: Mined)

  /**
   * groupby('startup_name')['investors_list'].count(): one entry per distinct
   * startup name, in ascending name order, holding the number of rows with that name.
   */
  function RowsPerStartup(names: seq<string>): (g: seq<Entry>)
    ensures DistinctKeys(g) && |g| == |Elems(names)|
    ensures forall k :: k in names <==> k in Keys(g)
    ensures forall i :: 0 <= i < |g| ==> g[i].count == multiset(names)[g[i].key]
    ensures forall i, j :: 0 <= i < j < |g| ==> LexLe(g[i].key, g[j].key)
  {
    var keys := SetToSeq(Elems(names));
    var g := seq(|keys|, i requires 0 <= i < |keys| => Entry(keys[i], multiset(names)[keys[i]]));
    assert Keys(g) == keys;
    assert forall k :: k in names <==> k in Elems(keys);
    g
  }

  /** sort_values(ascending=False).head(10) over the rows per startup. */
  function TopStartups(rows: seq<Row>): (r: seq<Entry>)
    ensures |r| == Min(TopN, |Elems(StartupNames(rows))|)
    ensures DistinctKeys(r) && NonIncreasing(r)
    ensures forall e :: e in r ==> e.key in StartupNames(rows) && e.count == multiset(StartupNames(rows))[e.key]
  {
    var names := StartupNames(rows);
    var g := RowsPerStartup(names);
    var r := MostCommon(g, TopN);
    MostCommonDistinct(g, TopN);
    forall e | e in r ensures e.key in names && e.count == multiset(names)[e.key] {
      assert e in multiset(r);
      RowsPerStartupEntry(names, e);
    }
    r
  }

  /** Every entry of the grouping is a startup name with its number of rows. */
  lemma RowsPerStartupEntry(names: seq<string>, e: Entry)
    requires e in multiset(RowsPerStartup(names))
    ensures e.key in names && e.count == multiset(names)[e.key]
  {
    var g := RowsPerStartup(names);
    var i :| 0 <= i < |g| && g[i] == e;
    assert Keys(g)[i] == e.key;
  }

  /** No startup left out of top_startups has more funding rows than one listed. */
  lemma TopStartupsAreTop(rows: seq<Row>, name: string, listed: Entry)
    requires name in StartupNames(rows) && listed in TopStartups(rows)
    requires forall e :: e in TopStartups(rows) ==> e.key != name
    ensures listed.count >= multiset(StartupNames(rows))[name]
  {
    var names := StartupNames(rows);
    var g := RowsPerStartup(names);
    var i :| 0 <= i < |g| && Keys(g)[i] == name;
    assert g[i] in g;
    MostCommonIsTop(g, TopN, g[i], listed);
  }

  /** The top co-investors carry their true number of appearances over all rows. */
  lemma TopCoCounts(rows: seq<Row>, e: Entry)
    requires e in MostCommon(Tally(Flatten(InvestorLists(rows))), TopN)
    ensures e.key in Vocabulary(InvestorLists(rows))
    ensures e.count == multiset(Flatten(InvestorLists(rows)))[e.key]
  {
    MostCommonCounts(Flatten(InvestorLists(rows)), TopN, e);
  }

  /** An investor missing from the top co-investors appears no more often than any listed one. */
  lemma TopCoAreTop(rows: seq<Row>, name: string, listed: Entry)
    requires var top := MostCommon(Tally(Flatten(InvestorLists(rows))), TopN);
      name in Vocabulary(InvestorLists(rows)) && listed in top && forall e :: e in top ==> e.key != name
    ensures listed.count >= multiset(Flatten(InvestorLists(rows)))[name]
  {
    var xs := Flatten(InvestorLists(rows));
    var t := Tally(xs);
    TallyIsTally(xs);
    var i :| 0 <= i < |t| && Keys(t)[i] == name;
    assert t[i] in t;
    MostCommonIsTop(t, TopN, t[i], listed);
  }

  /**
   * compute_insights: the counters are filled list by list, then ranked; the mining
   * runs with the default thresholds (support 0.02, confidence 0.4).
   */
  method ComputeInsights(rows: seq<Row>, miner: Miner) returns (s: Summary)
    ensures s.stats == Stats(|rows|, |Vocabulary(InvestorLists(rows))|)
    ensures s.topCo == MostCommon(Tally(Flatten(InvestorLists(rows))), TopN)
    ensures s.topDomains == MostCommon(Tally(Flatten(VerticalLists(rows))), TopN)
    ensures s.topStartups == TopStartups(rows)
    ensures s.investorLevel == InvestorInvestorApriori(rows, DefaultMinSupport, DefaultMinConfidence, miner)
    ensures s.startupLevel == StartupStartupApriori(rows, DefaultMinSupport, DefaultMinConfidence, miner)
  {
    var nStartups := |rows|;
    var nInvestors := |Vocabulary(InvestorLists(rows))|;

    var coCount := CountOccurrences(InvestorLists(rows));
    var topCo := MostCommon(coCount, TopN);

    var domainCount := CountOccurrences(VerticalLists(rows));
    var topDomains := MostCommon(domainCount, TopN);

    var topStartups := TopStartups(rows);

    var invLevel := InvestorInvestorApriori(rows, DefaultMinSupport, DefaultMinConfidence, miner);
    var startupLevel := StartupStartupApriori(rows, DefaultMinSupport, DefaultMinConfidence, miner);

    s := Summary(Stats(nStartups, nInvestors), topCo, topDomains, topStartups, invLevel, startupLevel);
  }
}
