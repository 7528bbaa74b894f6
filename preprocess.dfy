/**
 * Cleaning of the uploaded startup-funding frame (src/preprocess.py): investor
 * names are normalised, the investor and vertical fields are split on commas,
 * and rows without a startup or investor name are dropped.
 */
module Preprocess {
  import opened Basics
  import opened Text

  /** One row of the uploaded CSV; a missing cell (NaN) is None. */
  datatype RawRow = RawRow(
    startupName: Option<string>,
    investorsName: Option<string>,
    subVertical: Option<string>,
    vertical: Option<string>,
    amount: Option<real>)

  /** The uploaded frame: which columns exist, and its rows. */
  datatype RawFrame = RawFrame(
    hasStartupName: bool,
    hasInvestorsName: bool,
    hasSubVertical: bool,
    hasVertical: bool,
    hasAmount: bool,
    rows: seq<RawRow>)

  /** A cleaned row: the columns the rest of the application reads. */
  datatype Row = Row(
    startupName: string,
    investors: seq<string>,
    verticals: seq<string>,
    amount: Option<real>)

  /** The cleaned frame; `hasAmount` says whether the 'Amount in USD' column exists. */
  datatype Dataset = Dataset(hasAmount: bool, rows: seq<Row>)

  const SequoiaAlias := "sequoia capital india"
  const AccelAlias := "accel partners"
  const MatrixAlias := "matrix partners india"

  /** The three alias rewrites of normalize_investor, applied in order to a lower-cased name. */
  function CollapseAliases(lowered: string): (r: string)
    requires NoSurroundingSpace(lowered)
    ensures NoSurroundingSpace(r)
  {
    var a := ReplaceAll(lowered, SequoiaAlias, "sequoia");
    ReplaceKeepsTrimmed(lowered, SequoiaAlias, "sequoia");
    var b := ReplaceAll(a, AccelAlias, "accel");
    ReplaceKeepsTrimmed(a, AccelAlias, "accel");
    ReplaceKeepsTrimmed(b, MatrixAlias, "matrix");
    ReplaceAll(b, MatrixAlias, "matrix")
  }

  /**
   * normalize_investor: strip, lower-case, collapse three known aliases (in this
   * order), then title-case.
   */
  function NormalizeInvestor(name: string): (r: string)
    ensures NoSurroundingSpace(r)
    ensures TitleCased(r)
  {
    var c := CollapseAliases(Lower(Strip(name)));
    TitleKeepsTrimmed(c);
    Title(c)
  }

  /** Names that differ only in the case of their letters normalise alike. */
  lemma NormalizeIgnoresCase(a: string, b: string)
    requires Lower(a) == Lower(b)
    ensures NormalizeInvestor(a) == NormalizeInvestor(b)
  {
    StripLowerCommute(a);
    StripLowerCommute(b);
  }

  /** Names that differ only in surrounding whitespace normalise alike. */
  lemma NormalizeIgnoresSurroundingSpace(pre: string, a: string, post: string)
    requires AllSpace(pre) && AllSpace(post)
    ensures NormalizeInvestor(pre + a + post) == NormalizeInvestor(a)
  {
    StripIgnoresSurroundingSpace(pre, a, post);
  }

  /** Each alias collapses to its short form under the chain of rewrites. */
  lemma CollapseSequoia()
    ensures CollapseAliases(SequoiaAlias) == "sequoia"
  {
    var l := "sequoia capital india";
    ReplaceWhole(l, "sequoia");
    assert ReplaceAll("sequoia", "accel partners", "accel") == "sequoia";
    assert ReplaceAll("sequoia", "matrix partners india", "matrix") == "sequoia";
  }

  lemma CollapseAccel()
    ensures CollapseAliases(AccelAlias) == "accel"
  {
    var l := "accel partners";
    assert ReplaceAll(l, "sequoia capital india", "sequoia") == l;
    ReplaceWhole(l, "accel");
    assert ReplaceAll("accel", "matrix partners india", "matrix") == "accel";
  }

  lemma CollapseMatrix()
    ensures CollapseAliases(MatrixAlias) == "matrix"
  {
    MatrixNotSequoia();
    MatrixNotAccel();
    ReplaceWhole(MatrixAlias, "matrix");
  }

  lemma MatrixNotSequoia()
    ensures ReplaceAll(MatrixAlias, SequoiaAlias, "sequoia") == MatrixAlias
  {
    assert MatrixAlias != SequoiaAlias by { assert MatrixAlias[0] != SequoiaAlias[0]; }
    ReplaceOtherOfSameLength(MatrixAlias, SequoiaAlias, "sequoia");
  }

  lemma MatrixNotAccel()
    ensures ReplaceAll(MatrixAlias, AccelAlias, "accel") == MatrixAlias
  {
    assert AccelAlias[1] == 'c';
    ReplaceMissingChar(MatrixAlias, AccelAlias, "accel", 1);
  }

  /**
   * An alias inside a longer name: the first occurrence of "sequoia capital india"
   * becomes "sequoia", the text before it is kept, the rest is rewritten alike, and
   * the Accel and Matrix rewrites then run on that result.
   */
  lemma CollapseSequoiaInside(u: string, v: string)
    requires NoSurroundingSpace(u + SequoiaAlias + v)
    requires !Occurs(u + SequoiaAlias[..|SequoiaAlias| - 1], SequoiaAlias)
    ensures CollapseAliases(u + SequoiaAlias + v) ==
      ReplaceAll(ReplaceAll(u + "sequoia" + ReplaceAll(v, SequoiaAlias, "sequoia"), AccelAlias, "accel"), MatrixAlias, "matrix")
  {
    ReplaceAtFirst(u, SequoiaAlias, "sequoia", v);
  }

  /**
   * In a name without the Sequoia alias, the first "accel partners" becomes "accel"
   * and the Matrix rewrite runs on that result.
   */
  lemma CollapseAccelInside(u: string, v: string)
    requires NoSurroundingSpace(u + AccelAlias + v) && !Occurs(u + AccelAlias + v, SequoiaAlias)
    requires !Occurs(u + AccelAlias[..|AccelAlias| - 1], AccelAlias)
    ensures CollapseAliases(u + AccelAlias + v) ==
      ReplaceAll(u + "accel" + ReplaceAll(v, AccelAlias, "accel"), MatrixAlias, "matrix")
  {
    ReplaceAbsent(u + AccelAlias + v, SequoiaAlias, "sequoia");
    ReplaceAtFirst(u, AccelAlias, "accel", v);
  }

  /**
   * In a name without the Sequoia and Accel aliases, the first "matrix partners
   * india" becomes "matrix", and that is the last rewrite.
   */
  lemma CollapseMatrixInside(u: string, v: string)
    requires NoSurroundingSpace(u + MatrixAlias + v)
    requires !Occurs(u + MatrixAlias + v, SequoiaAlias) && !Occurs(u + MatrixAlias + v, AccelAlias)
    requires !Occurs(u + MatrixAlias[..|MatrixAlias| - 1], MatrixAlias)
    ensures CollapseAliases(u + MatrixAlias + v) == u + "matrix" + ReplaceAll(v, MatrixAlias, "matrix")
  {
    ReplaceAbsent(u + MatrixAlias + v, SequoiaAlias, "sequoia");
    ReplaceAbsent(u + MatrixAlias + v, AccelAlias, "accel");
    ReplaceAtFirst(u, MatrixAlias, "matrix", v);
  }

  /** "sequoia capital india advisors" collapses to "sequoia advisors". */
  lemma CollapseSequoiaAdvisors()
    ensures CollapseAliases(SequoiaAlias + " advisors") == "sequoia advisors"
  {
    AdvisorsUnderSequoia();
    AdvisorsUnderAccel();
    AdvisorsUnderMatrix();
  }

  lemma AdvisorsUnderSequoia()
    ensures ReplaceAll(SequoiaAlias + " advisors", SequoiaAlias, "sequoia") == "sequoia advisors"
  {
    var v := " advisors";
    ShortNotOccurs([] + SequoiaAlias[..|SequoiaAlias| - 1], SequoiaAlias);
    ReplaceAtFirst([], SequoiaAlias, "sequoia", v);
    assert [] + SequoiaAlias + v == SequoiaAlias + v;
    assert ReplaceAll(v, SequoiaAlias, "sequoia") == v;
  }

  lemma AdvisorsUnderAccel()
    ensures ReplaceAll("sequoia advisors", AccelAlias, "accel") == "sequoia advisors"
  {
    assert AccelAlias[1] == 'c';
    ReplaceMissingChar("sequoia advisors", AccelAlias, "accel", 1);
  }

  lemma AdvisorsUnderMatrix()
    ensures ReplaceAll("sequoia advisors", MatrixAlias, "matrix") == "sequoia advisors"
  {
    assert |"sequoia advisors"| < |MatrixAlias|;
  }

  /** Any spelling of "Sequoia Capital India", in any case and padding, becomes "Sequoia". */
  lemma NormalizeSequoia(name: string)
    requires Lower(Strip(name)) == SequoiaAlias
    ensures NormalizeInvestor(name) == "Sequoia"
  {
    CollapseSequoia();
    TitleOfSequoia();
    assert NormalizeInvestor(name) == Title(CollapseAliases(Lower(Strip(name))));
  }

  lemma TitleOfSequoia()
    ensures Title("sequoia") == "Sequoia"
  {
    TitleOfLowerWord("sequoia");
  }

  /** Any spelling of "Accel Partners" becomes "Accel". */
  lemma NormalizeAccel(name: string)
    requires Lower(Strip(name)) == AccelAlias
    ensures NormalizeInvestor(name) == "Accel"
  {
    CollapseAccel();
    TitleOfAccel();
    assert NormalizeInvestor(name) == Title(CollapseAliases(Lower(Strip(name))));
  }

  lemma TitleOfAccel()
    ensures Title("accel") == "Accel"
  {
    TitleOfLowerWord("accel");
  }

  /** Any spelling of "Matrix Partners India" becomes "Matrix". */
  lemma NormalizeMatrix(name: string)
    requires Lower(Strip(name)) == MatrixAlias
    ensures NormalizeInvestor(name) == "Matrix"
  {
    CollapseMatrix();
    TitleOfMatrix();
    assert NormalizeInvestor(name) == Title(CollapseAliases(Lower(Strip(name))));
  }

  lemma TitleOfMatrix()
    ensures Title("matrix") == "Matrix"
  {
    TitleOfLowerWord("matrix");
  }

  /** The investors_list cell: one normalised name per comma-separated piece, in order. */
  function InvestorsList(field: string): (r: seq<string>)
    ensures |r| == multiset(field)[','] + 1 && |r| == |Split(field, ',')|
    ensures forall i :: 0 <= i < |r| ==> r[i] == NormalizeInvestor(Split(field, ',')[i])
  {
    var parts := Split(field, ',');
    SplitCount(field, ',');
    seq(|parts|, i requires 0 <= i < |parts| => NormalizeInvestor(parts[i]))
  }

  /** The pieces of a vertical cell: none for a missing cell, else one stripped piece per part. */
  function Pieces(cell: Option<string>): (r: seq<string>)
    ensures cell.None? ==> r == []
    ensures cell.Some? ==> |r| == multiset(cell.value)[','] + 1 && |r| == |Split(cell.value, ',')|
    ensures cell.Some? ==> forall i :: 0 <= i < |r| ==> r[i] == Strip(Split(cell.value, ',')[i])
    ensures forall i :: 0 <= i < |r| ==> NoSurroundingSpace(r[i])
  {
    match cell
    case None => []
    case Some(x) =>
      var parts := Split(x, ',');
      SplitCount(x, ',');
      seq(|parts|, i requires 0 <= i < |parts| => Strip(parts[i]))
  }

  /** The verticals_list cell: SubVertical if that column exists, else Vertical, else nothing. */
  function VerticalsList(frame: RawFrame, row: RawRow): (r: seq<string>)
    ensures frame.hasSubVertical ==> r == Pieces(row.subVertical)
    ensures !frame.hasSubVertical && frame.hasVertical ==> r == Pieces(row.vertical)
    ensures !frame.hasSubVertical && !frame.hasVertical ==> r == []
  {
    if frame.hasSubVertical then Pieces(row.subVertical)
    else if frame.hasVertical then Pieces(row.vertical)
    else []
  }

  /** The row survives dropna on 'Startup Name' and 'Investors Name'. */
  predicate Complete(row: RawRow) {
    row.startupName.Some? && row.investorsName.Some?
  }

  function CleanRow(frame: RawFrame, raw: RawRow): (r: Row)
    requires Complete(raw)
    ensures r.startupName == raw.startupName.value && r.amount == raw.amount
    ensures |r.investors| == multiset(raw.investorsName.value)[','] + 1
    ensures forall x :: x in r.investors ==> NoSurroundingSpace(x) && TitleCased(x)
  {
    Row(raw.startupName.value, InvestorsList(raw.investorsName.value), VerticalsList(frame, raw), raw.amount)
  }

  // Columns of a cleaned frame.

  function InvestorLists(rows: seq<Row>): (r: seq<seq<string>>)
    ensures |r| == |rows| && forall i :: 0 <= i < |rows| ==> r[i] == rows[i].investors
  {
    seq(|rows|, i requires 0 <= i < |rows| => rows[i].investors)
  }

  function VerticalLists(rows: seq<Row>): (r: seq<seq<string>>)
    ensures |r| == |rows| && forall i :: 0 <= i < |rows| ==> r[i] == rows[i].verticals
  {
    seq(|rows|, i requires 0 <= i < |rows| => rows[i].verticals)
  }

  function StartupNames(rows: seq<Row>): (r: seq<string>)
    ensures |r| == |rows| && forall i :: 0 <= i < |rows| ==> r[i] == rows[i].startupName
  {
    seq(|rows|, i requires 0 <= i < |rows| => rows[i].startupName)
  }

  /** set(i for invs in lists for i in invs). */
  function Vocabulary(lists: seq<seq<string>>): set<string> {
    Elems(Flatten(lists))
  }

  /**
   * `data` is the cleaned form of `frame`: the complete rows, in their order, each
   * cleaned; the amount column is present exactly when it was uploaded.
   */
  predicate Preprocessed(frame: RawFrame, data: Dataset) {
    var kept := Filter(frame.rows, Complete);
    && |data.rows| == |kept|
    && data.hasAmount == frame.hasAmount
    && forall i :: 0 <= i < |kept| ==> data.rows[i] == CleanRow(frame, kept[i])
  }

  /** dropna(subset=['Startup Name','Investors Name']) raises KeyError unless both columns exist. */
  predicate HasRequiredColumns(frame: RawFrame) {
    frame.hasStartupName && frame.hasInvestorsName
  }

  /**
   * preprocess_dataset: builds the cleaned frame column by column and returns it
   * with the distinct investors and the startup names. A frame without the two
   * required columns makes the source raise, so callers check HasRequiredColumns.
   */
  method PreprocessDataset(frame: RawFrame) returns (data: Dataset, allInvestors: seq<string>, allStartups: seq<string>)
    requires HasRequiredColumns(frame)
    ensures Preprocessed(frame, data)
    ensures NoDup(allInvestors)
    ensures Elems(allInvestors) == Vocabulary(InvestorLists(data.rows))
    ensures allStartups == StartupNames(data.rows)
  {
    var df := frame.rows;
    df := Filter(df, Complete);
    assert forall i :: 0 <= i < |df| ==> df[i] in df;
    var investorsColumn := seq(|df|, i requires 0 <= i < |df| => InvestorsList(df[i].investorsName.value));
    var verticalsColumn := seq(|df|, i requires 0 <= i < |df| => VerticalsList(frame, df[i]));
    var startupColumn := seq(|df|, i requires 0 <= i < |df| => df[i].startupName.value);
    var rows := seq(|df|, i requires 0 <= i < |df| =>
      Row(startupColumn[i], investorsColumn[i], verticalsColumn[i], df[i].amount));
    data := Dataset(frame.hasAmount, rows);
    assert InvestorLists(rows) == investorsColumn;
    assert StartupNames(rows) == startupColumn;
    allInvestors := SetToSeq(Vocabulary(investorsColumn));
    allStartups := startupColumn;
  }

  /** Every row that survives the dropna has both of its required cells. */
  lemma KeptAreComplete(rows: seq<RawRow>)
    ensures forall i :: 0 <= i < |Filter(rows, Complete)| ==> Complete(Filter(rows, Complete)[i])
  {
    var kept := Filter(rows, Complete);
    forall i | 0 <= i < |kept| ensures Complete(kept[i]) {
      assert kept[i] in kept;
    }
  }

  /** Extending a frame by one row extends each column by that row's cell. */
  lemma ColumnsSnoc(rows: seq<Row>, r: Row)
    ensures InvestorLists(rows + [r]) == InvestorLists(rows) + [r.investors]
    ensures VerticalLists(rows + [r]) == VerticalLists(rows) + [r.verticals]
    ensures StartupNames(rows + [r]) == StartupNames(rows) + [r.startupName]
  {
  }

  /** Cleaning keeps the order of the rows: it distributes over concatenation of frames. */
  lemma KeptRowsInOrder(a: seq<RawRow>, b: seq<RawRow>)
    ensures Filter(a + b, Complete) == Filter(a, Complete) + Filter(b, Complete)
  {
    FilterAppend(a, b, Complete);
  }
}
