/**
 * The dashboard consumer of order and page-view events: running totals,
 * counters per order status and per page, and the last hundred events of
 * each kind, newest first. Each event is handled to completion before the
 * next; the locks, the atomic counters and the WebSocket broadcasts are not
 * modelled.
 */
module Consumer {
  import opened Wrappers
  import opened EventState

  const MaxRecentEvents := 100
  const UnknownStatus := "UNKNOWN"
  const UnknownPage := "/unknown"

  /**
   * The key an event is counted under: the field's text, or the default when
   * the field is missing. A field holding null or a non-text value makes the
   * listener throw (None): the cast fails, or the concurrent map refuses the
   * null key.
   */
  function KeyOf(e: Event, field: string, default: string): (r: Option<string>)
    ensures field !in e ==> r == Some(default)
    ensures field in e ==> (r.Some? <==> e[field].Text?)
    ensures field in e && r.Some? ==> e[field] == Text(r.value)
  {
    if field !in e then Some(default)
    else match e[field]
      case Text(s) => Some(s)
      case _ => None
  }

  /** A snapshot of the totals and the counter maps. */
  datatype Statistics = Statistics(
    totalOrders: int,
    totalPageViews: int,
    ordersByStatus: map<string, int>,
    pageViewsByPage: map<string, int>)

  class KafkaConsumerService {
    var recentOrders: seq<Event>
    var recentPageViews: seq<Event>
    var orderCount: int
    var pageViewCount: int
    var ordersByStatus: map<string, int>
    var pageViewsByPage: map<string, int>
    /** The events that were counted and stored, in order of arrival. */
    ghost var orders: seq<Event>
    ghost var pageViews: seq<Event>
    /** The events that raised the total and then threw before being stored. */
    ghost var failedOrders: nat
    ghost var failedPageViews: nat
    /** The key each stored event was counted under, in order of arrival. */
    ghost var statuses: seq<string>
    ghost var pages: seq<string>

    /**
     * Each list holds the last hundred stored events, newest first; each
     * counter holds how many stored events carried its key, and each total
     * also counts the events that threw half-way.
     */
    ghost predicate Valid()
      reads this
    {
      OrdersValid() && PageViewsValid()
    }

    ghost predicate OrdersValid()
      reads this`recentOrders, this`ordersByStatus, this`orders, this`statuses, this`orderCount, this`failedOrders
    {
      Tracks(recentOrders, ordersByStatus, orders, statuses) && orderCount == |orders| + failedOrders
    }

    ghost predicate PageViewsValid()
      reads this`recentPageViews, this`pageViewsByPage, this`pageViews, this`pages, this`pageViewCount, this`failedPageViews
    {
      Tracks(recentPageViews, pageViewsByPage, pageViews, pages) && pageViewCount == |pageViews| + failedPageViews
    }

    constructor ()
      ensures Valid()
      ensures recentOrders == [] && recentPageViews == [] && orderCount == 0 && pageViewCount == 0
      ensures ordersByStatus == map[] && pageViewsByPage == map[]
    {
      recentOrders := [];
      recentPageViews := [];
      orderCount := 0;
      pageViewCount := 0;
      ordersByStatus := map[];
      pageViewsByPage := map[];
      orders := [];
      pageViews := [];
      failedOrders := 0;
      failedPageViews := 0;
      statuses := [];
      pages := [];
    }

    /** consumeOrderEvent: `accepted` is false when the listener throws after counting the order. */
    method ConsumeOrderEvent(order: Event) returns (accepted: bool)
      requires Valid()
      modifies this`orderCount, this`failedOrders, this`ordersByStatus, this`recentOrders, this`orders, this`statuses
      ensures Valid()
      ensures orderCount == old(orderCount) + 1
      ensures accepted <==> KeyOf(order, "status", UnknownStatus).Some?
      ensures accepted ==> ordersByStatus == Increment(old(ordersByStatus), KeyOf(order, "status", UnknownStatus).value)
      ensures accepted ==> recentOrders == PushFront(old(recentOrders), order, MaxRecentEvents)
      ensures !accepted ==> ordersByStatus == old(ordersByStatus) && recentOrders == old(recentOrders)
      ensures recentPageViews == old(recentPageViews) && pageViewCount == old(pageViewCount)
      ensures pageViewsByPage == old(pageViewsByPage)
    {
      var status := KeyOf(order, "status", UnknownStatus);
      if status.None? {
        orderCount, failedOrders := orderCount + 1, failedOrders + 1;
        return false;
      }
      StoreOrder(order, status.value);
      accepted := true;
    }

    /** The accepted branch: count the event, add one under `key` and put the event first. */
    method StoreOrder(order: Event, key: string)
      requires OrdersValid()
      modifies this`orderCount, this`ordersByStatus, this`recentOrders, this`orders, this`statuses
      ensures OrdersValid()
      ensures orderCount == old(orderCount) + 1
      ensures ordersByStatus == Increment(old(ordersByStatus), key)
      ensures recentOrders == PushFront(old(recentOrders), order, MaxRecentEvents)
    {
      var recent := PushRecent(recentOrders, order, MaxRecentEvents);
      TracksStep(recentOrders, ordersByStatus, orders, statuses, order, key, recent);
      orderCount, ordersByStatus, recentOrders := orderCount + 1, Increment(ordersByStatus, key), recent;
      orders, statuses := orders + [order], statuses + [key];
    }

    /** consumePageViewEvent: the same bookkeeping keyed by page, "/unknown" when absent. */
    method ConsumePageViewEvent(pageView: Event) returns (accepted: bool)
      requires Valid()
      modifies this`pageViewCount, this`failedPageViews, this`pageViewsByPage, this`recentPageViews, this`pageViews, this`pages
      ensures Valid()
      ensures pageViewCount == old(pageViewCount) + 1
      ensures accepted <==> KeyOf(pageView, "page", UnknownPage).Some?
      ensures accepted ==> pageViewsByPage == Increment(old(pageViewsByPage), KeyOf(pageView, "page", UnknownPage).value)
      ensures accepted ==> recentPageViews == PushFront(old(recentPageViews), pageView, MaxRecentEvents)
      ensures !accepted ==> pageViewsByPage == old(pageViewsByPage) && recentPageViews == old(recentPageViews)
      ensures recentOrders == old(recentOrders) && orderCount == old(orderCount)
      ensures ordersByStatus == old(ordersByStatus)
    {
      var page := KeyOf(pageView, "page", UnknownPage);
      if page.None? {
        pageViewCount, failedPageViews := pageViewCount + 1, failedPageViews + 1;
        return false;
      }
      StorePageView(pageView, page.value);
      accepted := true;
    }

    /** The accepted branch: count the event, add one under `key` and put the event first. */
    method StorePageView(pageView: Event, key: string)
      requires PageViewsValid()
      modifies this`pageViewCount, this`pageViewsByPage, this`recentPageViews, this`pageViews, this`pages
      ensures PageViewsValid()
      ensures pageViewCount == old(pageViewCount) + 1
      ensures pageViewsByPage == Increment(old(pageViewsByPage), key)
      ensures recentPageViews == PushFront(old(recentPageViews), pageView, MaxRecentEvents)
    {
      var recent := PushRecent(recentPageViews, pageView, MaxRecentEvents);
      TracksStep(recentPageViews, pageViewsByPage, pageViews, pages, pageView, key, recent);
      pageViewCount, pageViewsByPage, recentPageViews := pageViewCount + 1, Increment(pageViewsByPage, key), recent;
      pageViews, pages := pageViews + [pageView], pages + [key];
    }

    /**
     * getStatistics: the totals and copies of the counter maps. The counters
     * add up to the totals except for the events that threw half-way.
     */
    method GetStatistics() returns (stats: Statistics)
      requires Valid()
      ensures stats == Statistics(orderCount, pageViewCount, ordersByStatus, pageViewsByPage)
      ensures Total(stats.ordersByStatus) + failedOrders == stats.totalOrders
      ensures Total(stats.pageViewsByPage) + failedPageViews == stats.totalPageViews
    {
      stats := Statistics(orderCount, pageViewCount, ordersByStatus, pageViewsByPage);
      TotalCounts(statuses);
      TotalCounts(pages);
    }

    /** getRecentOrders: a new list with the same events; changing it leaves the service alone. */
    method GetRecentOrders() returns (copy: array<Event>)
      ensures fresh(copy) && copy[..] == recentOrders
    {
      copy := CopyOf(recentOrders);
    }

    method GetRecentPageViews() returns (copy: array<Event>)
      ensures fresh(copy) && copy[..] == recentPageViews
    {
      copy := CopyOf(recentPageViews);
    }
  }

  /** Inserts the event at the front, then removes the last one past `cap` entries. */
  method PushRecent(recent: seq<Event>, e: Event, cap: nat) returns (r: seq<Event>)
    ensures r == PushFront(recent, e, cap)
  {
    r := [e] + recent;
    if |r| > cap {
      r := r[..|r| - 1];
    }
  }

  /**
   * The list holds the last hundred events of the history, newest first, and
   * each counter holds how many events of the history carried its key.
   */
  ghost predicate Tracks(recent: seq<Event>, counts: map<string, int>, history: seq<Event>, keys: seq<string>)
  {
    recent == Latest(history, MaxRecentEvents) && counts == Counts(keys) && |keys| == |history|
  }

  /** Storing one more event under `key` keeps the list and the counters in step with the history. */
  lemma TracksStep(recent: seq<Event>, counts: map<string, int>, history: seq<Event>, keys: seq<string>,
                   e: Event, key: string, recent': seq<Event>)
    requires Tracks(recent, counts, history, keys) && recent' == PushFront(recent, e, MaxRecentEvents)
    ensures Tracks(recent', Increment(counts, key), history + [e], keys + [key])
  {
    PushFrontLatest(history, e, MaxRecentEvents);
    CountsSnoc(keys, key);
  }

  /** Without events that threw, the status counters add up to the order total, and the page counters to the page-view total. */
  lemma CountersMatchTotals(c: KafkaConsumerService)
    requires c.Valid() && c.failedOrders == 0 && c.failedPageViews == 0
    ensures Total(c.ordersByStatus) == c.orderCount && Total(c.pageViewsByPage) == c.pageViewCount
  {
    TotalCounts(c.statuses);
    TotalCounts(c.pages);
  }

  /** The stored lists never exceed a hundred events, and the newest is first. */
  lemma RecentBounded(c: KafkaConsumerService)
    requires c.Valid()
    ensures |c.recentOrders| <= MaxRecentEvents && |c.recentPageViews| <= MaxRecentEvents
    ensures c.orders != [] ==> c.recentOrders[0] == c.orders[|c.orders| - 1]
  {
  }
}
