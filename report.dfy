/**
 * The one-page investor report (src/report.py): what is gathered for one investor,
 * and where each line of text is drawn on a US-letter page.
 */
module Report {
  import opened Basics
  import opened Preprocess
  import opened Counting

  /** reportlab's letter page size, in points. */
  const PageWidth: int := 612
  const PageHeight: int := 792

  // ------------------------------------------------------------ gathering

  /** The rows whose investor list holds exactly `name` (no normalisation of `name`). */
  function Selected(rows: seq<Row>, name: string): (sel: seq<Row>)
    ensures |sel| <= |rows|
    ensures forall r :: r in sel <==> r in rows && name in r.investors
  {
    Filter(rows, (r: Row) => name in r.investors)
  }

  /** What the report and the investor route compute for one investor. */
  datatype Gathered = Gathered(startups: seq<string>, domains: seq<string>, coInvestors: seq<Entry>)

  /**
   * The startups of the investor's rows in row order, all their verticals in
   * order, and the counter of the other investors in those rows.
   */
  method GatherInvestor(name: string, rows: seq<Row>) returns (g: Gathered)
    ensures g.startups == StartupNames(Selected(rows, name))
    ensures g.domains == Flatten(VerticalLists(Selected(rows, name)))
    ensures g.coInvestors == Tally(Without(Flatten(InvestorLists(Selected(rows, name))), name))
  {
    var invRows := Selected(rows, name);
    var startups := StartupNames(invRows);
    var domains := Flatten(VerticalLists(invRows));
    var coInvestors := CountOthers(InvestorLists(invRows), name);
    g := Gathered(startups, domains, coInvestors);
  }

  /** The co-investors are exactly the other investors that share a row with `name`. */
  lemma CoInvestorsShareARow(rows: seq<Row>, name: string, k: string)
    ensures k in Keys(Tally(Without(Flatten(InvestorLists(Selected(rows, name))), name)))
      <==> k != name && exists r :: r in rows && name in r.investors && k in r.investors
  {
    var sel := Selected(rows, name);
    var lists := InvestorLists(sel);
    var xs := Without(Flatten(lists), name);
    TallyKeys(xs, k);
    if k in Flatten(lists) {
      var j :| 0 <= j < |lists| && k in lists[j];
      assert sel[j] in sel && sel[j].investors == lists[j];
    }
    if exists r :: r in rows && name in r.investors && k in r.investors {
      var r :| r in rows && name in r.investors && k in r.investors;
      assert r in sel;
      var j :| 0 <= j < |sel| && sel[j] == r;
      assert k in lists[j];
    }
  }

  /** Each co-investor count is the number of times that investor appears in the investor's rows. */
  lemma CoInvestorCounts(rows: seq<Row>, name: string, e: Entry)
    requires e in Tally(Without(Flatten(InvestorLists(Selected(rows, name))), name))
    ensures e.key != name && e.count == multiset(Flatten(InvestorLists(Selected(rows, name))))[e.key]
  {
    CountOthersExcludes(Flatten(InvestorLists(Selected(rows, name))), name);
  }

  // ------------------------------------------------------------- layout

  datatype Font = Helvetica | HelveticaBold

  /** One drawString call: font, size, position (from the bottom-left corner) and text. */
  datatype Line = Line(font: Font, size: nat, x: int, y: int, text: string)

  /** Each line is drawn strictly below the one before. */
  predicate Descending(page: seq<Line>) {
    forall i, j :: 0 <= i < j < |page| ==> page[i].y > page[j].y
  }

  /** Every line lies strictly above height `y`. */
  predicate Above(page: seq<Line>, y: int) {
    forall i :: 0 <= i < |page| ==> page[i].y > y
  }

  /** The decimal digits of `n`, as f-strings print an int. */
  function Decimal(n: nat): (s: string)
    ensures IsDigits(s) && (n > 0 ==> s[0] != '0')
  {
    if n < 10 then [('0' as int + n) as char]
    else Decimal(n / 10) + [('0' as int + n % 10) as char]
  }

  /** A non-empty run of decimal digits. */
  predicate IsDigits(s: string) {
    |s| >= 1 && forall i :: 0 <= i < |s| ==> '0' <= s[i] <= '9'
  }

  /** The number a run of decimal digits denotes, read most significant digit first. */
  function DigitsValue(s: string): nat
    requires forall i :: 0 <= i < |s| ==> '0' <= s[i] <= '9'
  {
    if s == [] then 0 else DigitsValue(s[..|s| - 1]) * 10 + (s[|s| - 1] as int - '0' as int)
  }

  /** Reading back the digits written for n gives n. */
  lemma {:induction false} DecimalValue(n: nat)
    ensures DigitsValue(Decimal(n)) == n
    decreases n
  {
    if n >= 10 {
      var d := Decimal(n / 10);
      DecimalValue(n / 10);
      var s := d + [('0' as int + n % 10) as char];
      assert s[..|s| - 1] == d;
    } else {
      assert Decimal(n)[..0] == [];
    }
  }

  /** `- name` lines of the startup section. */
  function NameItems(names: seq<string>): (r: seq<string>)
    ensures |r| == |names| && forall i :: 0 <= i < |names| ==> r[i] == "- " + names[i]
  {
    seq(|names|, i requires 0 <= i < |names| => "- " + names[i])
  }

  /** `- key (count)` lines of the domain and co-investor sections. */
  function CountItems(t: seq<Entry>): (r: seq<string>)
    ensures |r| == |t| && forall i :: 0 <= i < |t| ==> r[i] == "- " + t[i].key + " (" + Decimal(t[i].count) + ")"
  {
    seq(|t|, i requires 0 <= i < |t| => "- " + t[i].key + " (" + Decimal(t[i].count) + ")")
  }

  /** The 12-point item lines at x = 70, the first at height `y` and each 15 points lower. */
  function ItemLines(y: int, texts: seq<string>): (r: seq<Line>)
    ensures |r| == |texts|
    ensures forall i :: 0 <= i < |texts| ==> r[i] == Line(Helvetica, 12, 70, y - 15 * i, texts[i])
  {
    seq(|texts|, i requires 0 <= i < |texts| => Line(Helvetica, 12, 70, y - 15 * i, texts[i]))
  }

  /** A section: its bold 16-point heading at the left margin, then its items 20 points lower. */
  function Section(heading: string, y: int, texts: seq<string>): seq<Line> {
    [Line(HelveticaBold, 16, 50, y, heading)] + ItemLines(y - 20, texts)
  }

  /**
   * The report page: the title 50 points below the top edge, the total 40 lower,
   * then the three sections, each starting 25 points (the first) or 10 points
   * (the others) below the last line of the one before.
   */
  predicate LaysOut(page: seq<Line>, name: string, total: nat, startups: seq<string>, domains: seq<Entry>, co: seq<Entry>) {
    var k1, k2 := |startups|, |domains|;
    page ==
      [Line(HelveticaBold, 22, 50, PageHeight - 50, "Investor Report: " + name),
       Line(Helvetica, 14, 50, PageHeight - 90, "Total Startups Invested In: " + Decimal(total))]
      + Section("Top Startups:", PageHeight - 115, NameItems(startups))
      + Section("Top Domains:", PageHeight - 145 - 15 * k1, CountItems(domains))
      + Section("Top Co-Investors:", PageHeight - 175 - 15 * (k1 + k2), CountItems(co))
  }

  /** Every line starts on the page; the width of its text is not measured. */
  predicate StartsOnPage(page: seq<Line>) {
    forall i :: 0 <= i < |page| ==> 0 < page[i].x < PageWidth && 0 < page[i].y < PageHeight
  }

  /**
   * The lines run top-down, each at the left margin (x = 50) or indented (x = 70),
   * strictly above `bottom` and no higher than `top`.
   */
  predicate Band(lines: seq<Line>, top: int, bottom: int) {
    && Descending(lines)
    && forall i :: 0 <= i < |lines| ==> bottom < lines[i].y <= top && (lines[i].x == 50 || lines[i].x == 70)
  }

  /** A band stacked on top of a lower one gives one band. */
  lemma BandConcat(a: seq<Line>, b: seq<Line>, top: int, mid: int, mid': int, bottom: int)
    requires Band(a, top, mid) && Band(b, mid', bottom) && bottom <= mid' <= mid <= top
    ensures Band(a + b, top, bottom)
  {
    var c := a + b;
    forall i | 0 <= i < |c| ensures bottom < c[i].y <= top && (c[i].x == 50 || c[i].x == 70) {
      if i < |a| { assert c[i] == a[i]; } else { assert c[i] == b[i - |a|]; }
    }
    forall i, j | 0 <= i < j < |c| ensures c[i].y > c[j].y {
      if j < |a| {
        assert c[i] == a[i] && c[j] == a[j];
      } else if i < |a| {
        assert c[i] == a[i] && c[j] == b[j - |a|];
      } else {
        assert c[i] == b[i - |a|] && c[j] == b[j - |a|];
      }
    }
  }

  /** Four bands, each starting 10 points below the one before (the first at its end), stack into one. */
  lemma StackBands(a: seq<Line>, b: seq<Line>, c: seq<Line>, d: seq<Line>, top: int, yb: int, yc: int, yd: int, bottom: int)
    requires Band(a, top, yb) && Band(b, yb, yc + 10) && Band(c, yc, yd + 10) && Band(d, yd, bottom)
    requires bottom <= yd && yd + 10 <= yc && yc + 10 <= yb <= top
    ensures Band(a + b + c + d, top, bottom)
  {
    BandConcat(a, b, top, yb, yb, yc + 10);
    BandConcat(a + b, c, top, yc + 10, yc, yd + 10);
    BandConcat(a + b + c, d, top, yd + 10, yd, bottom);
  }

  /** The items of a section fill 15 points each below their start. */
  lemma ItemLinesBand(y: int, texts: seq<string>)
    ensures Band(ItemLines(y, texts), y, y - 15 * |texts|)
  {
  }

  /** A section takes 20 points for its heading and 15 for each item. */
  lemma SectionBand(heading: string, y: int, texts: seq<string>)
    ensures Band(Section(heading, y, texts), y, y - 20 - 15 * |texts|)
  {
    ItemLinesBand(y - 20, texts);
    BandConcat([Line(HelveticaBold, 16, 50, y, heading)], ItemLines(y - 20, texts), y, y - 20, y - 20, y - 20 - 15 * |texts|);
  }

  /** A band inside the page's height starts on the page, above its bottom. */
  lemma BandStartsOnPage(page: seq<Line>, top: int, bottom: int)
    requires Band(page, top, bottom) && top < PageHeight && bottom >= 0
    ensures StartsOnPage(page) && Descending(page) && Above(page, bottom)
  {
  }

  /** Draws one 12-point item per text, 15 points apart, starting at height `y`. */
  method DrawItems(y: int, texts: seq<string>) returns (lines: seq<Line>, y': int)
    ensures lines == ItemLines(y, texts)
    ensures y' == y - 15 * |texts|
  {
    lines, y' := [], y;
    var all := ItemLines(y, texts);
    for k := 0 to |texts|
      invariant lines == all[..k]
      invariant y' == y - 15 * k
    {
      assert all[..k + 1] == all[..k] + [Line(Helvetica, 12, 70, y', texts[k])];
      lines := lines + [Line(Helvetica, 12, 70, y', texts[k])];
      y' := y' - 15;
    }
    assert all[..|texts|] == all;
  }

  /** Draws a heading at height `y`, then its items; the cursor ends below the last item. */
  method DrawSection(y: int, heading: string, texts: seq<string>) returns (lines: seq<Line>, y': int)
    ensures lines == Section(heading, y, texts)
    ensures y' == y - 20 - 15 * |texts|
  {
    var items;
    items, y' := DrawItems(y - 20, texts);
    lines := [Line(HelveticaBold, 16, 50, y, heading)] + items;
  }

  /**
   * The drawing part of generate_investor_pdf. The cursor ends 145 points plus 15
   * per item below its start; with at most ten items per section it stays above
   * the bottom edge, so the single page never overflows.
   */
  method Layout(name: string, total: nat, startups: seq<string>, domains: seq<Entry>, co: seq<Entry>)
    returns (page: seq<Line>, cursor: int)
    requires |startups| <= TopN && |domains| <= TopN && |co| <= TopN
    ensures LaysOut(page, name, total, startups, domains, co)
    ensures cursor == PageHeight - 50 - 145 - 15 * (|startups| + |domains| + |co|)
    ensures cursor > 0 && Above(page, cursor)
    ensures Descending(page) && StartsOnPage(page)
  {
    var y := PageHeight - 50;
    page := [Line(HelveticaBold, 22, 50, y, "Investor Report: " + name)];
    y := y - 40;
    page := page + [Line(Helvetica, 14, 50, y, "Total Startups Invested In: " + Decimal(total))];
    y := y - 25;
    var section;
    section, y := DrawSection(y, "Top Startups:", NameItems(startups));
    page, y := page + section, y - 10;
    section, y := DrawSection(y, "Top Domains:", CountItems(domains));
    page, y := page + section, y - 10;
    section, y := DrawSection(y, "Top Co-Investors:", CountItems(co));
    page, cursor := page + section, y;
    LaysOutFits(page, name, total, startups, domains, co);
  }

  /**
   * A page laid out with at most ten items per section starts every line on the page,
   * runs top-down, and ends 195 points plus 15 per item below the top edge.
   */
  lemma LaysOutFits(page: seq<Line>, name: string, total: nat, startups: seq<string>, domains: seq<Entry>, co: seq<Entry>)
    requires |startups| <= TopN && |domains| <= TopN && |co| <= TopN
    requires LaysOut(page, name, total, startups, domains, co)
    ensures Descending(page) && StartsOnPage(page)
    ensures Above(page, PageHeight - 195 - 15 * (|startups| + |domains| + |co|))
  {
    var k1, k2, k3 := |startups|, |domains|, |co|;
    var top := PageHeight - 50;
    var head := [Line(HelveticaBold, 22, 50, top, "Investor Report: " + name),
                 Line(Helvetica, 14, 50, PageHeight - 90, "Total Startups Invested In: " + Decimal(total))];
    var y1, y2, y3 := PageHeight - 115, PageHeight - 145 - 15 * k1, PageHeight - 175 - 15 * (k1 + k2);
    var s1 := Section("Top Startups:", y1, NameItems(startups));
    var s2 := Section("Top Domains:", y2, CountItems(domains));
    var s3 := Section("Top Co-Investors:", y3, CountItems(co));
    assert Band(head, top, y1);
    SectionBand("Top Startups:", y1, NameItems(startups));
    SectionBand("Top Domains:", y2, CountItems(domains));
    SectionBand("Top Co-Investors:", y3, CountItems(co));
    StackBands(head, s1, s2, s3, top, y1, y2, y3, y3 - 20 - 15 * k3);
    BandStartsOnPage(head + s1 + s2 + s3, top, y3 - 20 - 15 * k3);
    assert page == head + s1 + s2 + s3;
  }

  /**
   * generate_investor_pdf, as the lines drawn on its single page: the gathered
   * startups (first ten), domains and co-investors (ten most common each).
   */
  method GenerateInvestorPdf(name: string, rows: seq<Row>) returns (page: seq<Line>)
    ensures var sel := Selected(rows, name);
      LaysOut(page, name, |sel|,
        StartupNames(sel)[..Min(TopN, |sel|)],
        MostCommon(Tally(Flatten(VerticalLists(sel))), TopN),
        MostCommon(Tally(Without(Flatten(InvestorLists(sel)), name)), TopN))
    ensures Descending(page) && StartsOnPage(page)
  {
    var g := GatherInvestor(name, rows);
    var cursor;
    page, cursor := Layout(name, |g.startups|, g.startups[..Min(TopN, |g.startups|)],
      MostCommon(Tally(g.domains), TopN), MostCommon(g.coInvestors, TopN));
  }
}
