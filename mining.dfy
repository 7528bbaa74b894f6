/**
 * The transaction tables handed to the frequent-itemset miner, and the JSON shape
 * its results are turned into. The miner itself (mlxtend's apriori and
 * association_rules) is not part of this model: it is a parameter.
 */
module Mining {
  import opened Basics
  import opened Text
  import opened Preprocess

  /** One row of the miner's frequent-itemset table. */
  datatype FrequentRow = FrequentRow(support: real, itemsets: set<string>)

  /** One row of the miner's association-rule table. */
  datatype RuleRow = RuleRow(
    antecedents: set<string>,
    consequents: set<string>,
    support: real,
    confidence: real,
    lift: real)

  /** A data frame: column labels and one row of cells per transaction. */
  datatype Frame<T> = Frame(columns: seq<string>, cells: seq<seq<T>>)

  /** Every row has one cell per column. */
  predicate Rectangular<T>(f: Frame<T>) {
    forall i :: 0 <= i < |f.cells| ==> |f.cells[i]| == |f.columns|
  }

  /** What apriori is given: a true/false table, or a table of weights. */
  datatype Transactions = Flags(flags: Frame<bool>) | Weighted(weights: Frame<real>)

  /**
   * The miner: `apriori(table, min_support)` with column names as items, and
   * `association_rules(itemsets, metric='confidence', min_threshold)`.
   */
  datatype Miner = Miner(
    apriori: (Transactions, real) -> seq<FrequentRow>,
    associationRules: (seq<FrequentRow>, real) -> seq<RuleRow>)

  const DefaultMinSupport: real := 0.02
  const DefaultMinConfidence: real := 0.4

  /**
   * The one-hot table of a list column: one column per distinct element, one row
   * per list, a cell true exactly when the row's list holds the column's element.
   */
  function OneHot(lists: seq<seq<string>>): (f: Frame<bool>)
    ensures NoDup(f.columns) && Elems(f.columns) == Vocabulary(lists)
    ensures |f.cells| == |lists| && Rectangular(f)
    ensures forall i, c :: 0 <= i < |lists| && 0 <= c < |f.columns| ==>
      (f.cells[i][c] <==> f.columns[c] in lists[i])
  {
    var cols := SetToSeq(Vocabulary(lists));
    var cells := seq(|lists|, i requires 0 <= i < |lists| => Indicator(cols, lists[i]));
    assert forall i :: 0 <= i < |lists| ==> cells[i] == Indicator(cols, lists[i]);
    Frame(cols, cells)
  }

  /** One row of a one-hot table: which of the columns occur in the list. */
  function Indicator(cols: seq<string>, list: seq<string>): (r: seq<bool>)
    ensures |r| == |cols|
    ensures forall c :: 0 <= c < |cols| ==> (r[c] <==> cols[c] in list)
  {
    seq(|cols|, c requires 0 <= c < |cols| => cols[c] in list)
  }

  /** No column of a one-hot table is empty: each element occurs in some list. */
  lemma OneHotColumnsUsed(lists: seq<seq<string>>, c: nat)
    requires c < |OneHot(lists).columns|
    ensures exists i :: 0 <= i < |lists| && OneHot(lists).cells[i][c]
  {
    var f := OneHot(lists);
    assert f.columns[c] in Elems(f.columns);
    assert f.columns[c] in Flatten(lists);
    var i :| 0 <= i < |lists| && f.columns[c] in lists[i];
    assert f.cells[i][c];
  }

  /**
   * The encoding forgets order and repetition inside a list: lists with the same
   * elements, row by row, give the same table.
   */
  lemma OneHotIgnoresRepetition(a: seq<seq<string>>, b: seq<seq<string>>)
    requires |a| == |b|
    requires forall i :: 0 <= i < |a| ==> Elems(a[i]) == Elems(b[i])
    ensures OneHot(a) == OneHot(b)
  {
    SameVocabulary(a, b);
    var fa, fb := OneHot(a), OneHot(b);
    var cols := fa.columns;
    assert cols == fb.columns;
    forall i | 0 <= i < |a| ensures fa.cells[i] == fb.cells[i] {
      var ra, rb := fa.cells[i], fb.cells[i];
      forall c | 0 <= c < |cols| ensures ra[c] == rb[c] {
        assert cols[c] in a[i] <==> cols[c] in Elems(a[i]);
        assert cols[c] in b[i] <==> cols[c] in Elems(b[i]);
      }
    }
  }

  /** Lists with the same elements, row by row, have the same vocabulary. */
  lemma SameVocabulary(a: seq<seq<string>>, b: seq<seq<string>>)
    requires |a| == |b|
    requires forall i :: 0 <= i < |a| ==> Elems(a[i]) == Elems(b[i])
    ensures Vocabulary(a) == Vocabulary(b)
  {
    forall x ensures x in Flatten(a) <==> x in Flatten(b) {
      if x in Flatten(a) {
        var i :| 0 <= i < |a| && x in a[i];
        assert x in Elems(a[i]);
      }
      if x in Flatten(b) {
        var i :| 0 <= i < |b| && x in b[i];
        assert x in Elems(b[i]);
      }
    }
  }

  /** DataFrame.T: the row labels become the columns, and cell (v, j) is cell (j, v). */
  function Transpose<T>(index: seq<string>, f: Frame<T>): (t: Frame<T>)
    requires |f.cells| == |index| && Rectangular(f)
    ensures t.columns == index && |t.cells| == |f.columns| && Rectangular(t)
    ensures forall v, j :: 0 <= v < |f.columns| && 0 <= j < |index| ==> t.cells[v][j] == f.cells[j][v]
  {
    Frame(index, seq(|f.columns|, v requires 0 <= v < |f.columns| =>
      seq(|index|, j requires 0 <= j < |index| => f.cells[j][v])))
  }

  /** Transposing twice, with the columns as the new row labels, gives the table back. */
  lemma TransposeTwice<T>(index: seq<string>, f: Frame<T>)
    requires |f.cells| == |index| && Rectangular(f)
    ensures Transpose(f.columns, Transpose(index, f)) == f
  {
    var t := Transpose(index, f);
    var back := Transpose(f.columns, t);
    assert |back.cells| == |f.cells|;
    forall j | 0 <= j < |f.cells| ensures back.cells[j] == f.cells[j] {
      forall v | 0 <= v < |f.columns| ensures back.cells[j][v] == f.cells[j][v] {
        assert back.cells[j][v] == t.cells[v][j];
      }
    }
  }

  /** One entry of the JSON itemset list: `{'items': list(itemset), 'support': ...}`. */
  datatype ItemsetOut = ItemsetOut(items: seq<string>, support: real)

  /** One entry of the JSON rule list. */
  datatype RuleOut = RuleOut(
    antecedent: seq<string>,
    consequent: seq<string>,
    support: real,
    confidence: real,
    lift: real)

  /** list(s) mentions every item of the set exactly once. */
  predicate ListsSet(items: seq<string>, s: set<string>) {
    NoDup(items) && Elems(items) == s
  }

  /** The frequent-itemset table as JSON rows, in table order. */
  function FormatItemsets(freq: seq<FrequentRow>): (r: seq<ItemsetOut>)
    ensures |r| == |freq|
    ensures forall i :: 0 <= i < |r| ==>
      ListsSet(r[i].items, freq[i].itemsets) && r[i].support == freq[i].support
  {
    seq(|freq|, i requires 0 <= i < |freq| => ItemsetOut(SetToSeq(freq[i].itemsets), freq[i].support))
  }

  /** The rule table as JSON rows, in table order, with every measure copied. */
  function FormatRules(rules: seq<RuleRow>): (r: seq<RuleOut>)
    ensures |r| == |rules|
    ensures forall i :: 0 <= i < |r| ==>
      && ListsSet(r[i].antecedent, rules[i].antecedents)
      && ListsSet(r[i].consequent, rules[i].consequents)
      && r[i].support == rules[i].support
      && r[i].confidence == rules[i].confidence
      && r[i].lift == rules[i].lift
  {
    seq(|rules|, i requires 0 <= i < |rules| =>
      RuleOut(SetToSeq(rules[i].antecedents), SetToSeq(rules[i].consequents),
              rules[i].support, rules[i].confidence, rules[i].lift))
  }

  /** What the apriori functions return: the itemsets and the rules, as JSON rows. */
  datatype AprioriOutput = AprioriOutput(itemsets: seq<ItemsetOut>, rules: seq<RuleOut>)

  /** The JSON itemset rows determine the itemsets they came from. */
  lemma FormatItemsetsInjective(a: seq<FrequentRow>, b: seq<FrequentRow>)
    requires FormatItemsets(a) == FormatItemsets(b)
    ensures a == b
  {
    var fa, fb := FormatItemsets(a), FormatItemsets(b);
    forall i | 0 <= i < |a| ensures a[i] == b[i] {
      assert Elems(fa[i].items) == a[i].itemsets;
      assert Elems(fb[i].items) == b[i].itemsets;
    }
  }
}
