/**
 * Investor mining weighted by the funding amount (src/apriori_weighted.py): each
 * funding row counts in proportion to its share of the total amount.
 */
module AprioriWeighted {
  import opened Basics
  import opened Preprocess
  import opened Mining
  import opened MultiLevelApriori
  import opened AprioriUnweighted

  /** The amount column with missing cells read as 0 (fillna(0)). */
  function Amounts(rows: seq<Row>): (a: seq<real>)
    ensures |a| == |rows|
    ensures forall i :: 0 <= i < |rows| ==> a[i] == (if rows[i].amount.Some? then rows[i].amount.value else 0.0)
  {
    seq(|rows|, i requires 0 <= i < |rows| => if rows[i].amount.Some? then rows[i].amount.value else 0.0)
  }

  /** Every element multiplied by `k`. */
  function Scaled(a: seq<real>, k: real): (r: seq<real>)
    ensures |r| == |a| && forall i :: 0 <= i < |a| ==> r[i] == k * a[i]
  {
    seq(|a|, i requires 0 <= i < |a| => k * a[i])
  }

  lemma {:induction false} SumScaled(a: seq<real>, k: real)
    ensures Sum(Scaled(a, k)) == k * Sum(a)
    decreases |a|
  {
    if a != [] {
      var r := Scaled(a, k);
      assert r[1..] == Scaled(a[1..], k) by {
        forall i | 0 <= i < |a| - 1 ensures r[1..][i] == Scaled(a[1..], k)[i] {
          assert r[1..][i] == r[i + 1];
        }
      }
      SumScaled(a[1..], k);
    }
  }

  /** Every element divided by `t`. */
  function Divided(a: seq<real>, t: real): (r: seq<real>)
    requires t != 0.0
    ensures |r| == |a| && forall i :: 0 <= i < |a| ==> r[i] == a[i] / t
  {
    seq(|a|, i requires 0 <= i < |a| => a[i] / t)
  }

  lemma {:induction false} SumDivided(a: seq<real>, t: real)
    requires t != 0.0
    ensures Sum(Divided(a, t)) == Sum(a) / t
    decreases |a|
  {
    if a != [] {
      var r := Divided(a, t);
      assert r[1..] == Divided(a[1..], t) by {
        forall i | 0 <= i < |a| - 1 ensures r[1..][i] == Divided(a[1..], t)[i] {
          assert r[1..][i] == r[i + 1];
        }
      }
      SumDivided(a[1..], t);
      DivAdd(a[0], Sum(a[1..]), t);
    }
  }

  lemma DivAdd(x: real, y: real, t: real)
    requires t != 0.0
    ensures x / t + y / t == (x + y) / t
  {
  }

  /** amounts / total: each amount as a share of the total. */
  function Normalize(a: seq<real>): (w: seq<real>)
    requires Sum(a) != 0.0
    ensures |w| == |a| && forall i :: 0 <= i < |a| ==> w[i] == a[i] / Sum(a)
  {
    Divided(a, Sum(a))
  }

  /** The shares add up to one. */
  lemma NormalizeSumsToOne(a: seq<real>)
    requires Sum(a) != 0.0
    ensures Sum(Normalize(a)) == 1.0
  {
    SumDivided(a, Sum(a));
    assert Sum(a) / Sum(a) == 1.0;
  }

  lemma {:induction false} ElemAtMostSum(a: seq<real>, i: nat)
    requires i < |a| && forall j :: 0 <= j < |a| ==> a[j] >= 0.0
    ensures 0.0 <= a[i] <= Sum(a)
    decreases |a|
  {
    SumNonNegative(a[1..]);
    if i > 0 {
      ElemAtMostSum(a[1..], i - 1);
    }
  }

  lemma {:induction false} SumNonNegative(a: seq<real>)
    requires forall j :: 0 <= j < |a| ==> a[j] >= 0.0
    ensures Sum(a) >= 0.0
    decreases |a|
  {
    if a != [] {
      SumNonNegative(a[1..]);
    }
  }

  /** With no negative amounts, every share lies between 0 and 1. */
  lemma NormalizeBounded(a: seq<real>)
    requires Sum(a) != 0.0 && forall j :: 0 <= j < |a| ==> a[j] >= 0.0
    ensures forall i :: 0 <= i < |a| ==> 0.0 <= Normalize(a)[i] <= 1.0
  {
    SumNonNegative(a);
    var t := Sum(a);
    forall i | 0 <= i < |a| ensures 0.0 <= a[i] / t <= 1.0 {
      ElemAtMostSum(a, i);
      ShareBounded(a[i], t);
    }
  }

  lemma ShareBounded(x: real, t: real)
    requires 0.0 <= x <= t && t != 0.0
    ensures 0.0 <= x / t <= 1.0
  {
    assert x / t * t == x;
  }

  /** The shares do not depend on the currency unit: scaling every amount changes nothing. */
  lemma NormalizeScaleFree(a: seq<real>, k: real)
    requires Sum(a) != 0.0 && k != 0.0
    ensures Sum(Scaled(a, k)) != 0.0
    ensures Normalize(Scaled(a, k)) == Normalize(a)
  {
    SumScaled(a, k);
    var t := Sum(a);
    var b := Scaled(a, k);
    var tb := Sum(b);
    forall i | 0 <= i < |a| ensures Normalize(b)[i] == Normalize(a)[i] {
      CancelFactor(k, a[i], t, b[i], tb);
    }
  }

  lemma CancelFactor(k: real, x: real, t: real, kx: real, kt: real)
    requires k != 0.0 && t != 0.0 && kx == k * x && kt == k * t
    ensures kt != 0.0 && kx / kt == x / t
  {
    assert kx / kt * kt == kx;
    assert x / t * t == x;
  }

  lemma {:induction false} SumConstant(a: seq<real>, x: real)
    requires forall j :: 0 <= j < |a| ==> a[j] == x
    ensures Sum(a) == (|a| as real) * x
    decreases |a|
  {
    if a != [] {
      SumConstant(a[1..], x);
    }
  }

  /** Equal amounts give every row the same share, 1/n. */
  lemma NormalizeUniform(a: seq<real>, x: real)
    requires x != 0.0 && |a| > 0 && forall j :: 0 <= j < |a| ==> a[j] == x
    ensures Sum(a) != 0.0
    ensures forall i :: 0 <= i < |a| ==> Normalize(a)[i] == 1.0 / (|a| as real)
  {
    SumConstant(a, x);
    var n := |a| as real;
    var total := Sum(a);
    assert total == x * n by { assert n * x == x * n; }
    CancelFactor(x, 1.0, n, x, total);
    forall i | 0 <= i < |a| ensures Normalize(a)[i] == 1.0 / n {
      assert Normalize(a)[i] == a[i] / total == x / total;
    }
  }

  /**
   * The weighted table: the columns of a true/false table, with each true cell
   * replaced by its row's weight and each false cell by 0 (`(inv in invs) * w`).
   */
  function WeightedTable(flags: Frame<bool>, w: seq<real>): (f: Frame<real>)
    requires |w| == |flags.cells| && Rectangular(flags)
    ensures f.columns == flags.columns
    ensures |f.cells| == |flags.cells| && Rectangular(f)
    ensures forall i, c :: 0 <= i < |w| && 0 <= c < |f.columns| ==>
      f.cells[i][c] == (if flags.cells[i][c] then w[i] else 0.0)
  {
    Frame(flags.columns, seq(|w|, i requires 0 <= i < |w| =>
      seq(|flags.columns|, c requires 0 <= c < |flags.columns| => if flags.cells[i][c] then w[i] else 0.0)))
  }

  /**
   * run_apriori_weighted. Without an amount column it is the unweighted run;
   * otherwise the weighted table is mined and both result tables are formatted.
   */
  function RunAprioriWeighted(data: Dataset, minSupport: real, minConfidence: real, miner: Miner): (o: AprioriOutput)
    requires data.hasAmount ==> Sum(Amounts(data.rows)) != 0.0
    ensures !data.hasAmount ==> o == RunAprioriUnweighted(data.rows, minSupport, minConfidence, miner)
    ensures data.hasAmount ==>
      var freq := miner.apriori(Weighted(WeightedTable(InvestorTable(data.rows), Normalize(Amounts(data.rows)))), minSupport);
      o == AprioriOutput(FormatItemsets(freq), FormatRules(miner.associationRules(freq, minConfidence)))
  {
    if !data.hasAmount then RunAprioriUnweighted(data.rows, minSupport, minConfidence, miner)
    else
      var weights := Normalize(Amounts(data.rows));
      var freq := miner.apriori(Weighted(WeightedTable(InvestorTable(data.rows), weights)), minSupport);
      var rules := miner.associationRules(freq, minConfidence);
      AprioriOutput(FormatItemsets(freq), FormatRules(rules))
  }

  /**
   * When every row has the same non-zero amount, the weighted table is the
   * investor table with each true cell worth 1/n: weighting by amount then
   * adds nothing to plain co-occurrence.
   */
  lemma EqualAmountsWeighUniformly(rows: seq<Row>, x: real)
    requires x != 0.0 && |rows| > 0
    requires forall j :: 0 <= j < |rows| ==> rows[j].amount == Some(x)
    ensures Sum(Amounts(rows)) != 0.0
    ensures var f := WeightedTable(InvestorTable(rows), Normalize(Amounts(rows)));
      && f.columns == InvestorTable(rows).columns
      && forall i, c :: 0 <= i < |rows| && 0 <= c < |f.columns| ==>
        f.cells[i][c] == (if InvestorTable(rows).cells[i][c] then 1.0 / (|rows| as real) else 0.0)
  {
    NormalizeUniform(Amounts(rows), x);
  }
}
