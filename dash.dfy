/**
 * The dashboard: one summary fetch, the card list and chart rows derived
 * from it, and the pluralised captions.
 */
module Dash {
  import opened Api

  /**
   * The summary the dashboard endpoint returns. Each count may be absent;
   * the nested groups (`reviews`, `enquiries`, `admins`) are flattened.
   */
  datatype Summary = Summary(
    blogs: Option<nat>, banners: Option<nat>, clients: Option<nat>, projects: Option<nat>,
    works: Option<nat>, subscribers: Option<nat>, reviewsTotal: Option<nat>,
    enquiriesUnopened: Option<nat>, adminsTotal: Option<nat>, adminsSuperadmin: Option<nat>)

  /** A dashboard card: its caption, the raw value shown and the route it opens. */
  datatype Card = Card(caption: string, value: Option<nat>, location: string)

  /** The bar of the "Overview" chart. */
  datatype OverviewRow = OverviewRow(name: string, subscribers: nat, clients: nat, projects: nat, reviews: nat)

  /** A bar pair of the monthly comparison chart. */
  datatype MonthRow = MonthRow(name: string, thisMonth: nat, lastMonth: nat)

  /** `count || 0` */
  function OrZero(count: Option<nat>): (n: nat)
    ensures count.Some? ==> n == count.value
    ensures count.None? ==> n == 0
  {
    match count
    case Some(v) => v
    case None => 0
  }

  /** A summary with every count absent: what `stats?.x` reads while the stats are null. */
  const NoSummary := Summary(None, None, None, None, None, None, None, None, None, None)

  function OrNoSummary(stats: Option<Summary>): Summary {
    match stats
    case Some(s) => s
    case None => NoSummary
  }

  /** The chart data set on a successful fetch. */
  function Overview(s: Summary): (rows: seq<OverviewRow>)
    ensures |rows| == 1 && rows[0].name == "Overview"
    ensures rows[0].subscribers == OrZero(s.subscribers) && rows[0].clients == OrZero(s.clients)
    ensures rows[0].projects == OrZero(s.projects) && rows[0].reviews == OrZero(s.reviewsTotal)
  {
    [OverviewRow("Overview", OrZero(s.subscribers), OrZero(s.clients), OrZero(s.projects), OrZero(s.reviewsTotal))]
  }

  /** The card list: nine cards when the stats are present, none otherwise. */
  function Cards(stats: Option<Summary>): seq<Card> {
    match stats
    case None => []
    case Some(s) => [
      Card("Blogs", s.blogs, "/mec-admin/blogs"),
      Card("Banners", s.banners, "/mec-admin/banners"),
      Card("Clients", s.clients, "/mec-admin/clients"),
      Card("Unopened Enquiries", s.enquiriesUnopened, "/mec-admin/enquiries"),
      Card("Reviews", s.reviewsTotal, "/mec-admin/reviews"),
      Card("Subscribers", s.subscribers, "/mec-admin/subscribers"),
      Card("Admins", s.adminsTotal, "/mec-admin"),
      Card("Projects", s.projects, "/mec-admin/project"),
      Card("Works", s.works, "/mec-admin/work")
    ]
  }

  function Captions(cards: seq<Card>): (r: seq<string>)
    ensures |r| == |cards| && forall i :: 0 <= i < |cards| ==> r[i] == cards[i].caption
  {
    seq(|cards|, i requires 0 <= i < |cards| => cards[i].caption)
  }

  /** The card value shown under a caption, if such a card exists. */
  function ValueOf(cards: seq<Card>, caption: string): Option<Option<nat>> {
    if cards == [] then None
    else if cards[0].caption == caption then Some(cards[0].value)
    else ValueOf(cards[1..], caption)
  }

  /** The first card with a caption decides what `ValueOf` reports for it. */
  lemma {:induction false} ValueOfFirst(cards: seq<Card>, i: nat)
    requires i < |cards|
    requires forall j :: 0 <= j < i ==> cards[j].caption != cards[i].caption
    ensures ValueOf(cards, cards[i].caption) == Some(cards[i].value)
  {
    if i > 0 {
      ValueOfFirst(cards[1..], i - 1);
    }
  }

  /**
   * With stats there are exactly nine cards, in a fixed order of distinct
   * captions, each showing the count of its own domain (the nested totals for
   * enquiries, reviews and admins); without stats there are none.
   */
  lemma CardsShape(stats: Option<Summary>)
    ensures stats.None? <==> Cards(stats) == []
    ensures stats.Some? ==>
      && Captions(Cards(stats)) == ["Blogs", "Banners", "Clients", "Unopened Enquiries", "Reviews",
                                  "Subscribers", "Admins", "Projects", "Works"]
      && (forall i, j :: 0 <= i < j < 9 ==> Cards(stats)[i].caption != Cards(stats)[j].caption)
      && ValueOf(Cards(stats), "Blogs") == Some(stats.value.blogs)
      && ValueOf(Cards(stats), "Banners") == Some(stats.value.banners)
      && ValueOf(Cards(stats), "Clients") == Some(stats.value.clients)
      && ValueOf(Cards(stats), "Unopened Enquiries") == Some(stats.value.enquiriesUnopened)
      && ValueOf(Cards(stats), "Reviews") == Some(stats.value.reviewsTotal)
      && ValueOf(Cards(stats), "Admins") == Some(stats.value.adminsTotal)
      && ValueOf(Cards(stats), "Works") == Some(stats.value.works)
  {
    if stats.Some? {
      var cards := Cards(stats);
      CardCaptions(stats.value);
      ValueOfFirst(cards, 0);
      ValueOfFirst(cards, 1);
      ValueOfFirst(cards, 2);
      ValueOfFirst(cards, 3);
      ValueOfFirst(cards, 4);
      ValueOfFirst(cards, 6);
      ValueOfFirst(cards, 8);
    }
  }

  /**
   * The captions of the nine cards, which are pairwise distinct, and the
   * route each card navigates to when clicked.
   */
  lemma CardCaptions(s: Summary)
    ensures Captions(Cards(Some(s))) == ["Blogs", "Banners", "Clients", "Unopened Enquiries", "Reviews",
                                         "Subscribers", "Admins", "Projects", "Works"]
    ensures forall i, j :: 0 <= i < j < 9 ==> Cards(Some(s))[i].caption != Cards(Some(s))[j].caption
    ensures forall i :: 0 <= i < 9 ==>
      Cards(Some(s))[i].location
        == ["/mec-admin/blogs", "/mec-admin/banners", "/mec-admin/clients", "/mec-admin/enquiries",
            "/mec-admin/reviews", "/mec-admin/subscribers", "/mec-admin", "/mec-admin/project",
            "/mec-admin/work"][i]
  {
    var cards := Cards(Some(s));
    assert Captions(cards) == ["Blogs", "Banners", "Clients", "Unopened Enquiries", "Reviews",
                               "Subscribers", "Admins", "Projects", "Works"];
  }

  /** The fixed offsets of the synthetic "Last Month" bars. */
  const SubscribersOffset: nat := 5
  const ClientsOffset: nat := 2
  const ProjectsOffset: nat := 1
  const ReviewsOffset: nat := 3

  /** `Math.max(0, current - offset)`: a placeholder, not a historical value. */
  function LastMonth(current: nat, offset: nat): (last: nat)
    ensures last <= current
    ensures last == 0 <==> current <= offset
    ensures current >= offset ==> last + offset == current
  {
    if current > offset then current - offset else 0
  }

  /** The monthly comparison chart, which renders whether or not stats arrived. */
  function MonthRows(stats: Option<Summary>): seq<MonthRow> {
    var s := OrNoSummary(stats);
    var subs, cls, prj, rev := OrZero(s.subscribers), OrZero(s.clients), OrZero(s.projects), OrZero(s.reviewsTotal);
    [
      MonthRow("Subscribers", subs, LastMonth(subs, SubscribersOffset)),
      MonthRow("Clients", cls, LastMonth(cls, ClientsOffset)),
      MonthRow("Projects", prj, LastMonth(prj, ProjectsOffset)),
      MonthRow("Reviews", rev, LastMonth(rev, ReviewsOffset))
    ]
  }

  /**
   * Four rows; "This Month" is the count (0 when absent) and "Last Month"
   * never exceeds it; without stats every bar is 0.
   */
  lemma MonthRowsBounded(stats: Option<Summary>)
    ensures |MonthRows(stats)| == 4
    ensures forall i :: 0 <= i < 4 ==> MonthRows(stats)[i].lastMonth <= MonthRows(stats)[i].thisMonth
    ensures forall i :: 0 <= i < 4 ==>
      MonthRows(stats)[i].lastMonth == LastMonth(MonthRows(stats)[i].thisMonth, [5, 2, 1, 3][i])
    ensures MonthRows(stats)[0].name == "Subscribers" && MonthRows(stats)[1].name == "Clients"
    ensures MonthRows(stats)[2].name == "Projects" && MonthRows(stats)[3].name == "Reviews"
    ensures stats.Some? ==>
      && MonthRows(stats)[0].thisMonth == OrZero(stats.value.subscribers)
      && MonthRows(stats)[1].thisMonth == OrZero(stats.value.clients)
      && MonthRows(stats)[2].thisMonth == OrZero(stats.value.projects)
      && MonthRows(stats)[3].thisMonth == OrZero(stats.value.reviewsTotal)
    ensures stats.None? ==> forall i :: 0 <= i < 4 ==> MonthRows(stats)[i].thisMonth == 0 && MonthRows(stats)[i].lastMonth == 0
  {
  }

  /**
   * The three views of a summary agree: each count of the "Overview" bar is
   * the "This Month" bar of the same domain and, before the `|| 0` default,
   * the value on that domain's card.
   */
  lemma ChartsAgree(s: Summary)
    ensures Overview(s)[0].subscribers == MonthRows(Some(s))[0].thisMonth
    ensures Overview(s)[0].clients == MonthRows(Some(s))[1].thisMonth
    ensures Overview(s)[0].projects == MonthRows(Some(s))[2].thisMonth
    ensures Overview(s)[0].reviews == MonthRows(Some(s))[3].thisMonth
    ensures ValueOf(Cards(Some(s)), "Subscribers") == Some(s.subscribers)
    ensures ValueOf(Cards(Some(s)), "Clients") == Some(s.clients)
    ensures ValueOf(Cards(Some(s)), "Projects") == Some(s.projects)
    ensures ValueOf(Cards(Some(s)), "Reviews") == Some(s.reviewsTotal)
  {
    CardsShape(Some(s));
    var cards := Cards(Some(s));
    ValueOfFirst(cards, 5);
    ValueOfFirst(cards, 7);
  }

  /** `count === 1 ? "" : "s"`: an absent count reads as plural. */
  function PluralS(count: Option<nat>): (suffix: string)
    ensures suffix == "" <==> count == Some(1)
    ensures suffix != "" ==> suffix == "s"
  {
    if count == Some(1) then "" else "s"
  }

  /** `count === 1 ? "y" : "ies"`, for "enquir…". */
  function PluralY(count: Option<nat>): (suffix: string)
    ensures suffix == "y" <==> count == Some(1)
    ensures suffix != "y" ==> suffix == "ies"
  {
    if count == Some(1) then "y" else "ies"
  }

  /** The page state of the dashboard. */
  class DashPage {
    var stats: Option<Summary>
    var loading: bool
    var chartData: seq<OverviewRow>
    ghost var calls: seq<Call<()>>

    constructor ()
      ensures stats == None && loading && chartData == [] && calls == []
    {
      stats, loading, chartData := None, true, [];
      calls := [];
    }

    /**
     * `HandleFetch`: success stores the summary and the overview row; a failed
     * or thrown reply leaves both. Loading ends false in every case.
     */
    method HandleFetch(reply: Reply<Summary>)
      modifies this
      ensures calls == old(calls) + [FetchList]
      ensures reply.Success? ==> stats == Some(reply.data) && chartData == Overview(reply.data)
      ensures !reply.Success? ==> stats == old(stats) && chartData == old(chartData)
      ensures !loading
      ensures !reply.Success? && old(stats) == None ==> Cards(stats) == []
    {
      calls := calls + [FetchList];
      if reply.Success? {
        stats := Some(reply.data);
        chartData := Overview(reply.data);
      }
      loading := false;
    }
  }
}
