/**
 * The Flask application (app.py): the uploaded frame and the cached dashboard are
 * the state of one `App` object; each route is a method returning a reply.
 */
module App {
  import opened Basics
  import opened Text
  import opened Preprocess
  import opened Counting
  import Insights
  import Report

  /** A route's reply: the JSON payload, or an HTTP error status with its message. */
  datatype Reply<T> = Ok(value: T) | Fail(code: nat, message: string)

  /** What the request carries in its 'file' field. */
  datatype FilePart = Missing | Empty | Csv(frame: RawFrame)

  /** The dashboard payload of get_insights. */
  datatype Dashboard = Dashboard(topCo: seq<Entry>, topDomains: seq<Entry>, stats: Insights.Stats)

  /**
   * What get_insights computes from a frame: the ten most frequent investors and
   * domains, the number of rows, and the number of distinct investors (len(co_count)).
   */
  function DashboardOf(rows: seq<Row>): (d: Dashboard)
    ensures d.stats.nStartups == |rows|
    ensures |d.topCo| <= TopN && NonIncreasing(d.topCo) && DistinctKeys(d.topCo)
    ensures |d.topDomains| <= TopN && NonIncreasing(d.topDomains) && DistinctKeys(d.topDomains)
  {
    var coCount := Tally(Flatten(InvestorLists(rows)));
    var domainCount := Tally(Flatten(VerticalLists(rows)));
    TallyIsTally(Flatten(InvestorLists(rows)));
    TallyIsTally(Flatten(VerticalLists(rows)));
    MostCommonDistinct(coCount, TopN);
    MostCommonDistinct(domainCount, TopN);
    Dashboard(MostCommon(coCount, TopN), MostCommon(domainCount, TopN), Insights.Stats(|rows|, |coCount|))
  }

  /** The counting part of get_insights: both dicts are filled list by list, then ranked. */
  method ComputeDashboard(rows: seq<Row>) returns (d: Dashboard)
    ensures d == DashboardOf(rows)
  {
    var coCount := CountOccurrences(InvestorLists(rows));
    var topCo := MostCommon(coCount, TopN);
    var domainCount := CountOccurrences(VerticalLists(rows));
    var topDomains := MostCommon(domainCount, TopN);
    d := Dashboard(topCo, topDomains, Insights.Stats(|rows|, |coCount|));
  }

  /**
   * The dashboard route and compute_insights agree: the same rankings, and
   * len(co_count) is the number of distinct investors.
   */
  lemma DashboardMatchesInsights(rows: seq<Row>)
    ensures DashboardOf(rows).stats == Insights.Stats(|rows|, |Vocabulary(InvestorLists(rows))|)
    ensures DashboardOf(rows).topCo == MostCommon(Tally(Flatten(InvestorLists(rows))), TopN)
    ensures DashboardOf(rows).topDomains == MostCommon(Tally(Flatten(VerticalLists(rows))), TopN)
  {
    TallySize(Flatten(InvestorLists(rows)));
  }

  /** The payload of investor_details. */
  datatype Details = Details(startups: seq<string>, domains: seq<Entry>, coInvestors: seq<Entry>)

  /** A downloadable file: its name and the lines of its page. */
  datatype Download = Download(fileName: string, page: seq<Report.Line>)

  // ------------------------------------------------------------ network map

  datatype NodeKind = InvestorNode | StartupNode | DomainNode
  datatype Node = Node(id: string, kind: NodeKind)
  datatype Link = Link(from: string, to: string)
  datatype Network = Network(nodes: seq<Node>, links: seq<Link>)

  function Ids(nodes: seq<Node>): (r: seq<string>)
    ensures |r| == |nodes| && forall i :: 0 <= i < |nodes| ==> r[i] == nodes[i].id
  {
    seq(|nodes|, i requires 0 <= i < |nodes| => nodes[i].id)
  }

  /** `nodes` has one node of kind `kind` for each element of `ids`, and no other. */
  predicate NodesFor(nodes: seq<Node>, kind: NodeKind, ids: set<string>) {
    && (forall i :: 0 <= i < |nodes| ==> nodes[i].kind == kind)
    && NoDup(Ids(nodes))
    && Elems(Ids(nodes)) == ids
  }

  /** The links of one row: investor to startup, then startup to each of its verticals. */
  function RowLinks(name: string, r: Row): (l: seq<Link>)
    ensures |l| == 1 + |r.verticals| && l[0] == Link(name, r.startupName)
    ensures forall j :: 0 <= j < |r.verticals| ==> l[j + 1] == Link(r.startupName, r.verticals[j])
  {
    [Link(name, r.startupName)] + VerticalLinks(r)
  }

  /** The startup-to-vertical links of one row, in the order of its verticals. */
  function VerticalLinks(r: Row): (l: seq<Link>)
    ensures |l| == |r.verticals|
    ensures forall j :: 0 <= j < |r.verticals| ==> l[j] == Link(r.startupName, r.verticals[j])
  {
    seq(|r.verticals|, j requires 0 <= j < |r.verticals| => Link(r.startupName, r.verticals[j]))
  }

  /** The links of the selected rows, row after row. */
  function NetworkLinks(name: string, sel: seq<Row>): seq<Link> {
    if sel == [] then [] else NetworkLinks(name, sel[..|sel| - 1]) + RowLinks(name, sel[|sel| - 1])
  }

  /**
   * Every link goes from the investor to one of its startups, or from one of
   * those startups to one of its verticals; and every such pair is linked.
   */
  lemma {:induction false} NetworkLinksConnect(name: string, sel: seq<Row>, l: Link)
    ensures l in NetworkLinks(name, sel) <==>
      exists i :: 0 <= i < |sel| && (l == Link(name, sel[i].startupName) ||
        (l.from == sel[i].startupName && l.to in sel[i].verticals))
    decreases |sel|
  {
    if sel != [] {
      var init := sel[..|sel| - 1];
      var last := sel[|sel| - 1];
      NetworkLinksConnect(name, init, l);
      var rl := RowLinks(name, last);
      assert l in rl <==> l == Link(name, last.startupName) || (l.from == last.startupName && l.to in last.verticals) by {
        if l.from == last.startupName && l.to in last.verticals {
          var j :| 0 <= j < |last.verticals| && last.verticals[j] == l.to;
          assert rl[1 + j] == l;
        }
      }
      forall i | 0 <= i < |init| ensures init[i] == sel[i] { }
    }
  }

  /** One investor-to-startup link per selected row, plus one link per vertical of those rows. */
  lemma {:induction false} NetworkLinksCount(name: string, sel: seq<Row>)
    ensures |NetworkLinks(name, sel)| == |sel| + |Flatten(VerticalLists(sel))|
    decreases |sel|
  {
    if sel != [] {
      var init := sel[..|sel| - 1];
      NetworkLinksCount(name, init);
      assert sel == init + [sel[|sel| - 1]];
      ColumnsSnoc(init, sel[|sel| - 1]);
      FlattenSnoc(VerticalLists(init), sel[|sel| - 1].verticals);
    }
  }

  /** Appends one node of kind `kind` per element of `ids`, in some order. */
  method AddNodes(nodes: seq<Node>, ids: set<string>, kind: NodeKind) returns (nodes': seq<Node>)
    ensures |nodes'| == |nodes| + |ids| && nodes'[..|nodes|] == nodes
    ensures NodesFor(nodes'[|nodes|..], kind, ids)
  {
    var added: seq<Node> := [];
    var rest := ids;
    while rest != {}
      invariant rest <= ids
      invariant NodesFor(added, kind, ids - rest) && |added| == |ids - rest|
      decreases |rest|
    {
      var x :| x in rest;
      AddNode(added, kind, ids, rest, x);
      added := added + [Node(x, kind)];
      rest := rest - {x};
    }
    assert ids - rest == ids;
    nodes' := nodes + added;
    assert nodes'[..|nodes|] == nodes && nodes'[|nodes|..] == added;
  }

  /** Taking one more element out of `rest` adds its node. */
  lemma AddNode(added: seq<Node>, kind: NodeKind, ids: set<string>, rest: set<string>, x: string)
    requires rest <= ids && x in rest
    requires NodesFor(added, kind, ids - rest) && |added| == |ids - rest|
    ensures NodesFor(added + [Node(x, kind)], kind, ids - (rest - {x}))
    ensures |added + [Node(x, kind)]| == |ids - (rest - {x})|
  {
    var done := ids - rest;
    assert done + {x} == ids - (rest - {x});
    assert x !in Elems(Ids(added));
    var r := added + [Node(x, kind)];
    assert Ids(r) == Ids(added) + [x];
    NoDupSnoc(Ids(added), x);
    assert |done + {x}| == |done| + 1;
    forall i | 0 <= i < |r| ensures r[i].kind == kind {
      if i < |added| { assert r[i] == added[i]; }
    }
  }

  /** The body of network_map's row loop: one row's links and verticals. */
  method AddRow(name: string, row: Row, links: seq<Link>, domains: set<string>)
    returns (links': seq<Link>, domains': set<string>)
    ensures links' == links + RowLinks(name, row)
    ensures domains' == domains + Elems(row.verticals)
  {
    var startup := row.startupName;
    ghost var tail := VerticalLinks(row);
    links' := links + [Link(name, startup)];
    ghost var head := links';
    domains' := domains;
    for j := 0 to |row.verticals|
      invariant links' == head + tail[..j]
      invariant domains' == domains + Elems(row.verticals[..j])
    {
      var d := row.verticals[j];
      PrefixSnoc(head, tail, j);
      PrefixSnoc([], row.verticals, j);
      domains' := domains' + {d};
      links' := links' + [Link(startup, d)];
    }
    assert tail[..|row.verticals|] == tail;
    assert row.verticals[..|row.verticals|] == row.verticals;
    assert links' == links + ([Link(name, startup)] + tail);
  }

  /** network_map's row loop: the links in row order, and the startups and verticals seen. */
  method CollectRows(name: string, sel: seq<Row>) returns (links: seq<Link>, startups: set<string>, domains: set<string>)
    ensures links == NetworkLinks(name, sel)
    ensures startups == Elems(StartupNames(sel))
    ensures domains == Vocabulary(VerticalLists(sel))
  {
    links, startups, domains := [], {}, {};
    for i := 0 to |sel|
      invariant links == NetworkLinks(name, sel[..i])
      invariant startups == Elems(StartupNames(sel[..i]))
      invariant domains == Vocabulary(VerticalLists(sel[..i]))
    {
      startups := startups + {sel[i].startupName};
      links, domains := AddRow(name, sel[i], links, domains);
      RowStep(name, sel, i);
    }
    assert sel[..|sel|] == sel;
  }

  /**
   * network_map: the investor node, one node per distinct startup and per distinct
   * vertical of the investor's rows, and the links of those rows in row order.
   */
  method BuildNetwork(name: string, rows: seq<Row>) returns (net: Network)
    ensures var sel := Report.Selected(rows, name);
      var startups := Elems(StartupNames(sel));
      var domains := Vocabulary(VerticalLists(sel));
      && net.links == NetworkLinks(name, sel)
      && |net.nodes| == 1 + |startups| + |domains|
      && net.nodes[0] == Node(name, InvestorNode)
      && NodesFor(net.nodes[1..1 + |startups|], StartupNode, startups)
      && NodesFor(net.nodes[1 + |startups|..], DomainNode, domains)
  {
    var sel := Report.Selected(rows, name);
    var links, startupsSet, domainsSet := CollectRows(name, sel);
    var nodes := [Node(name, InvestorNode)];
    var withStartups := AddNodes(nodes, startupsSet, StartupNode);
    var all := AddNodes(withStartups, domainsSet, DomainNode);
    var k := 1 + |startupsSet|;
    assert all[1..k] == all[..k][1..] && all[..k] == withStartups;
    assert all[0] == withStartups[0] && withStartups[0] == withStartups[..1][0];
    net := Network(all, links);
  }

  lemma RowStep(name: string, sel: seq<Row>, i: nat)
    requires i < |sel|
    ensures NetworkLinks(name, sel[..i + 1]) == NetworkLinks(name, sel[..i]) + RowLinks(name, sel[i])
    ensures Elems(StartupNames(sel[..i + 1])) == Elems(StartupNames(sel[..i])) + {sel[i].startupName}
    ensures Vocabulary(VerticalLists(sel[..i + 1])) == Vocabulary(VerticalLists(sel[..i])) + Elems(sel[i].verticals)
  {
    assert sel[..i + 1] == sel[..i] + [sel[i]];
    assert sel[..i + 1][..i] == sel[..i];
    ColumnsSnoc(sel[..i], sel[i]);
    FlattenSnoc(VerticalLists(sel[..i]), sel[i].verticals);
  }

  // ------------------------------------------------------------------ the app

  class App {
    /** DATA: the cleaned frame of the last upload, if any. */
    var data: Option<Dataset>
    /** INSIGHTS_CACHE: the dashboard, once computed for the current data. */
    var cache: Option<Dashboard>

    /** A filled cache always holds the dashboard of the current data. */
    predicate Valid()
      reads this
    {
      cache.Some? ==> data.Some? && cache.value == DashboardOf(data.value.rows)
    }

    constructor()
      ensures data == None && cache == None
      ensures Valid()
    {
      data := None;
      cache := None;
    }

    /**
     * upload_file: a request without a 'file' field is rejected by Flask itself, an
     * empty file part is refused; a CSV without the 'Startup Name' or 'Investors
     * Name' column makes preprocess_dataset raise, so Flask answers 500 before DATA
     * and INSIGHTS_CACHE are touched; otherwise the frame is cleaned and replaces
     * the data, and the cache is cleared.
     */
    method UploadFile(file: FilePart) returns (r: Reply<string>)
      requires Valid()
      modifies this
      ensures Valid()
      ensures file.Missing? ==> r == Fail(400, "Bad Request") && data == old(data) && cache == old(cache)
      ensures file.Empty? ==> r == Fail(400, "No file uploaded") && data == old(data) && cache == old(cache)
      ensures file.Csv? && !HasRequiredColumns(file.frame) ==>
        r == Fail(500, "Internal Server Error") && data == old(data) && cache == old(cache)
      ensures file.Csv? && HasRequiredColumns(file.frame) ==>
        r == Ok("Upload successful!") && cache == None && data.Some? && Preprocessed(file.frame, data.value)
    {
      match file
      case Missing =>
        r := Fail(400, "Bad Request");
      case Empty =>
        r := Fail(400, "No file uploaded");
      case Csv(frame) =>
        if !HasRequiredColumns(frame) {
          r := Fail(500, "Internal Server Error");
        } else {
          var df, _, _ := PreprocessDataset(frame);
          data := Some(df);
          cache := None;
          r := Ok("Upload successful!");
        }
    }

    /**
     * get_insights: refused without data; otherwise the dashboard of the current
     * data, computed on the first request and served from the cache afterwards.
     */
    method GetInsights() returns (r: Reply<Dashboard>)
      requires Valid()
      modifies this
      ensures Valid() && data == old(data)
      ensures old(data).None? ==> r == Fail(400, "No data uploaded") && cache == old(cache)
      ensures old(data).Some? ==> r == Ok(DashboardOf(data.value.rows)) && cache == Some(r.value)
    {
      if data.None? {
        return Fail(400, "No data uploaded");
      }
      if cache.None? {
        var d := ComputeDashboard(data.value.rows);
        cache := Some(d);
      }
      r := Ok(cache.value);
    }

    /**
     * investor_details: refused without data; otherwise the investor's startups in
     * row order, and the ten most common domains and co-investors.
     */
    method InvestorDetails(name: string) returns (r: Reply<Details>)
      ensures data.None? ==> r == Fail(400, "No data uploaded")
      ensures data.Some? ==>
        var sel := Report.Selected(data.value.rows, name);
        r == Ok(Details(
          StartupNames(sel),
          MostCommon(Tally(Flatten(VerticalLists(sel))), TopN),
          MostCommon(Tally(Without(Flatten(InvestorLists(sel)), name)), TopN)))
    {
      if data.None? {
        return Fail(400, "No data uploaded");
      }
      var g := Report.GatherInvestor(name, data.value.rows);
      r := Ok(Details(g.startups, MostCommon(Tally(g.domains), TopN), MostCommon(g.coInvestors, TopN)));
    }

    /**
     * generate_report: refused without data; otherwise the one-page report as a
     * download named after the investor.
     */
    method GenerateReport(name: string) returns (r: Reply<Download>)
      ensures data.None? ==> r == Fail(400, "No data uploaded")
      ensures data.Some? ==>
        var sel := Report.Selected(data.value.rows, name);
        && r.Ok? && r.value.fileName == name + "_report.pdf"
        && Report.LaysOut(r.value.page, name, |sel|,
             StartupNames(sel)[..Min(TopN, |sel|)],
             MostCommon(Tally(Flatten(VerticalLists(sel))), TopN),
             MostCommon(Tally(Without(Flatten(InvestorLists(sel)), name)), TopN))
        && Report.Descending(r.value.page) && Report.StartsOnPage(r.value.page)
    {
      if data.None? {
        return Fail(400, "No data uploaded");
      }
      var page := Report.GenerateInvestorPdf(name, data.value.rows);
      r := Ok(Download(name + "_report.pdf", page));
    }

    /** network_map: refused without data; otherwise the investor's network. */
    method NetworkMap(name: string) returns (r: Reply<Network>)
      ensures data.None? ==> r == Fail(400, "No data uploaded")
      ensures data.Some? ==>
        var sel := Report.Selected(data.value.rows, name);
        var startups := Elems(StartupNames(sel));
        var domains := Vocabulary(VerticalLists(sel));
        && r.Ok?
        && r.value.links == NetworkLinks(name, sel)
        && |r.value.nodes| == 1 + |startups| + |domains|
        && r.value.nodes[0] == Node(name, InvestorNode)
        && NodesFor(r.value.nodes[1..1 + |startups|], StartupNode, startups)
        && NodesFor(r.value.nodes[1 + |startups|..], DomainNode, domains)
    {
      if data.None? {
        return Fail(400, "No data uploaded");
      }
      var net := BuildNetwork(name, data.value.rows);
      r := Ok(net);
    }
  }

  /**
   * Asking for the dashboard twice in a row gives the same answer, and the second
   * answer comes from the cache.
   */
  method InsightsTwice(app: App) returns (first: Reply<Dashboard>, second: Reply<Dashboard>)
    requires app.Valid()
    modifies app
    ensures app.Valid()
    ensures first == second
  {
    first := app.GetInsights();
    second := app.GetInsights();
  }

  /**
   * An upload invalidates the cache: the next dashboard is that of the new data.
   * A refused upload leaves the data, and so the next dashboard, as they were.
   */
  method UploadThenInsights(app: App, frame: RawFrame) returns (r: Reply<Dashboard>)
    requires app.Valid()
    modifies app
    ensures HasRequiredColumns(frame) ==>
      app.data.Some? && Preprocessed(frame, app.data.value) && r == Ok(DashboardOf(app.data.value.rows))
    ensures !HasRequiredColumns(frame) ==> app.data == old(app.data)
    ensures !HasRequiredColumns(frame) && app.data.Some? ==> r == Ok(DashboardOf(app.data.value.rows))
    ensures app.data.None? ==> r == Fail(400, "No data uploaded")
  {
    var _ := app.UploadFile(Csv(frame));
    r := app.GetInsights();
  }
}
