/**
 * The analytics side of the streams service: the ad-hoc parser for the
 * records the streams publish, the fifty most recent parsed records, and
 * the running totals and counters of orders and page views.
 */
module Analytics {
  import opened Wrappers
  import opened JavaText
  import opened EventState

  const MaxAnalytics := 50
  const ReceivedAt := "receivedAt"

  // ---------------------------------------------------------------------------
  // parseJson

  /** The text with every '{', '}' and '"' deleted. */
  function Cleaned(json: string): (r: string)
    ensures '{' !in r && '}' !in r && '"' !in r
    ensures |r| <= |json|
  {
    RemoveChar(RemoveChar(RemoveChar(json, '{'), '}'), '"')
  }

  /** No character that parseJson deletes. */
  predicate Plain(s: string) {
    '{' !in s && '}' !in s && '"' !in s
  }

  /** Deleting characters works piece by piece. */
  lemma CleanedConcat(a: string, b: string)
    ensures Cleaned(a + b) == Cleaned(a) + Cleaned(b)
  {
    RemoveConcat(a, b, '{');
    RemoveConcat(RemoveChar(a, '{'), RemoveChar(b, '{'), '}');
    RemoveConcat(RemoveChar(RemoveChar(a, '{'), '}'), RemoveChar(RemoveChar(b, '{'), '}'), '"');
  }

  /** A text without braces or quotes is left as it is. */
  lemma CleanedPlain(s: string)
    requires Plain(s)
    ensures Cleaned(s) == s
  {
    RemoveAbsent(s, '{');
    RemoveAbsent(s, '}');
    RemoveAbsent(s, '"');
  }

  /** A value that Long.parseLong accepts is stored as a number, any other as text. */
  function ParseValue(v: string): (r: Value)
    ensures r.Number? || r == Text(v)
    ensures r.Number? <==> ParseLong(v).Some?
    ensures r.Number? ==> MinLong <= r.n <= MaxLong
  {
    match ParseLong(v)
    case Some(n) => Number(n)
    case None => Text(v)
  }

  /**
   * One comma-separated piece: a pair when it splits on ':' into exactly two
   * parts, with the key and the value trimmed; nothing otherwise.
   */
  function PairOf(piece: string): (r: Option<(string, Value)>)
    ensures ':' !in piece ==> r == None
    ensures r.Some? ==> ':' !in r.value.0 && Trim(r.value.0) == r.value.0
    ensures r.Some? && r.value.1.Text? ==> ':' !in r.value.1.s
  {
    var keyValue := Split(piece, ':');
    if |keyValue| == 2 then
      var key, value := Trim(keyValue[0]), Trim(keyValue[1]);
      TrimKeepsOut(keyValue[0], ':');
      TrimKeepsOut(keyValue[1], ':');
      TrimOfTrimmed(key);
      Some((key, ParseValue(value)))
    else None
  }

  /** The pair, if any, of each piece in turn. */
  function PairsOf(pieces: seq<string>): (r: seq<Option<(string, Value)>>)
    ensures |r| == |pieces|
    ensures forall i :: 0 <= i < |pieces| ==> r[i] == PairOf(pieces[i])
  {
    seq(|pieces|, i requires 0 <= i < |pieces| => PairOf(pieces[i]))
  }

  /** The map after putting the pairs in order: a later key replaces an earlier one. */
  function PutAll(pairs: seq<Option<(string, Value)>>): Event {
    if pairs == [] then map[]
    else
      var m := PutAll(pairs[..|pairs| - 1]);
      match pairs[|pairs| - 1]
      case Some((k, v)) => m[k := v]
      case None => m
  }

  /** What parseJson returns for a text: every key is trimmed and free of ':'. */
  function Parsed(json: string): (r: Event)
    ensures forall k :: k in r ==> ':' !in k && Trim(k) == k
  {
    var pieces := Split(Cleaned(json), ',');
    assert forall k :: k in PutAll(PairsOf(pieces)) ==> ':' !in k && Trim(k) == k by {
      forall k | k in PutAll(PairsOf(pieces))
        ensures ':' !in k && Trim(k) == k
      {
        ParsedKeys(pieces, k);
      }
    }
    PutAll(PairsOf(pieces))
  }

  /** Parsing one more piece puts its pair, if it has one, into the map of the pieces before it. */
  lemma PutAllStep(pieces: seq<string>, i: nat)
    requires i < |pieces|
    ensures PutAll(PairsOf(pieces[..i + 1])) ==
      match PairOf(pieces[i])
      case Some((k, v)) => PutAll(PairsOf(pieces[..i]))[k := v]
      case None => PutAll(PairsOf(pieces[..i]))
  {
    assert pieces[..i + 1][..i] == pieces[..i];
    var ps := PairsOf(pieces[..i + 1]);
    assert ps[..|ps| - 1] == PairsOf(pieces[..i]);
    assert ps[|ps| - 1] == PairOf(pieces[i]);
  }

  /** parseJson: a loop over the comma-separated pieces filling the map. */
  method ParseJson(json: string) returns (result: Event)
    ensures result == Parsed(json)
  {
    var cleaned := RemoveChar(RemoveChar(RemoveChar(json, '{'), '}'), '"');
    var pairs := Split(cleaned, ',');
    result := map[];
    for i := 0 to |pairs|
      invariant result == PutAll(PairsOf(pairs[..i]))
    {
      PutAllStep(pairs, i);
      var keyValue := Split(pairs[i], ':');
      if |keyValue| == 2 {
        var key := Trim(keyValue[0]);
        var value := Trim(keyValue[1]);
        var number := ParseLong(value);
        if number.Some? {
          result := result[key := Number(number.value)];
        } else {
          result := result[key := Text(value)];
        }
        assert PairOf(pairs[i]) == Some((key, ParseValue(value)));
      } else {
        assert PairOf(pairs[i]) == None;
      }
    }
    assert pairs[..|pairs|] == pairs;
  }

  /** A key is in the map exactly when some pair has that key. */
  lemma {:induction false} PutAllKeys(pairs: seq<Option<(string, Value)>>, k: string)
    ensures k in PutAll(pairs) <==> exists i :: 0 <= i < |pairs| && pairs[i].Some? && pairs[i].value.0 == k
  {
    if pairs != [] {
      var init := pairs[..|pairs| - 1];
      PutAllKeys(init, k);
      if exists i :: 0 <= i < |pairs| && pairs[i].Some? && pairs[i].value.0 == k {
        var i :| 0 <= i < |pairs| && pairs[i].Some? && pairs[i].value.0 == k;
        if i < |init| {
          assert init[i] == pairs[i];
        }
      }
    }
  }

  /** Putting pairs one batch after another is a map union in which the later batch wins. */
  lemma {:induction false} PutAllConcat(ps: seq<Option<(string, Value)>>, qs: seq<Option<(string, Value)>>)
    ensures PutAll(ps + qs) == PutAll(ps) + PutAll(qs)
  {
    if qs == [] {
      assert ps + qs == ps;
    } else {
      var init := qs[..|qs| - 1];
      PutAllConcat(ps, init);
      assert (ps + qs)[..|ps + qs| - 1] == ps + init;
    }
  }

  /** A key is in the parsed map exactly when some piece is a pair with that key. */
  lemma ParsedKeys(pieces: seq<string>, k: string)
    ensures k in PutAll(PairsOf(pieces)) <==>
      exists i :: 0 <= i < |pieces| && PairOf(pieces[i]).Some? && PairOf(pieces[i]).value.0 == k
  {
    PutAllKeys(PairsOf(pieces), k);
  }

  /** Of several pairs with the same key, the last one decides the value. */
  lemma LastPairWins(ps: seq<Option<(string, Value)>>, qs: seq<Option<(string, Value)>>, k: string, v: Value)
    requires forall j :: 0 <= j < |qs| ==> qs[j].None? || qs[j].value.0 != k
    ensures k in PutAll(ps + [Some((k, v))] + qs) && PutAll(ps + [Some((k, v))] + qs)[k] == v
  {
    PutAllConcat(ps + [Some((k, v))], qs);
    PutAllConcat(ps, [Some((k, v))]);
    PutAllKeys(qs, k);
    assert [Some((k, v))][..0] == [];
  }

  /** "key:value" with no ':' in either part and a non-empty value is a pair. */
  lemma PairOfKeyValue(key: string, value: string)
    requires ':' !in key && ':' !in value && value != ""
    ensures PairOf(key + ":" + value) == Some((Trim(key), ParseValue(Trim(value))))
  {
    SplitPair(key, value, ':');
  }

  /** "key:" has no value after Java's split drops the empty last part, so it is not a pair. */
  lemma EmptyValueDropped(key: string)
    requires ':' !in key
    ensures PairOf(key + ":") == None
  {
    var s := key + ":";
    assert s[|key|] == ':';
    SplitAllPrefix(key, "", ':');
    assert s == key + [':'] + "";
    assert SplitAll(s, ':') == [key, ""];
    assert |DropTrailingEmpty([key, ""])| <= 1 by {
      assert DropTrailingEmpty([key, ""]) == DropTrailingEmpty([key]);
    }
  }

  /**
   * A value that itself holds ':' and does not end with one, such as a
   * timestamp, makes three or more parts, so the piece is dropped.
   */
  lemma ColonInValueDropped(key: string, a: string, b: string)
    requires ':' !in key && ':' !in a && b != "" && b[|b| - 1] != ':'
    ensures PairOf(key + ":" + a + ":" + b) == None
  {
    SplitThree(key, a, b, ':');
  }

  // ---------------------------------------------------------------------------
  // Revenue in cents

  /**
   * The Java cast (long) of a double: toward zero, saturating at the ends of
   * the 64-bit range.
   */
  function ToLong(x: real): (r: int)
    ensures MinLong <= r <= MaxLong
    ensures MinLong as real <= x < MaxLong as real + 1.0 && 0.0 <= x ==> r as real <= x < r as real + 1.0
    ensures MinLong as real - 1.0 < x <= MaxLong as real && x < 0.0 ==> r as real - 1.0 < x <= r as real
    ensures x >= MaxLong as real + 1.0 ==> r == MaxLong
    ensures x <= MinLong as real - 1.0 ==> r == MinLong
  {
    var t := if x >= 0.0 then x.Floor else -((-x).Floor);
    if t < MinLong then MinLong else if t > MaxLong then MaxLong else t
  }

  const TwoTo64: int := 0x1_0000_0000_0000_0000

  /** Two's-complement 64-bit addition wraps the sum back into the long range. */
  function Wrap(v: int): (r: int)
    ensures MinLong <= r <= MaxLong
    ensures (r - v) % TwoTo64 == 0
    ensures MinLong <= v <= MaxLong ==> r == v
  {
    (v - MinLong) % TwoTo64 + MinLong
  }

  // ---------------------------------------------------------------------------
  // The service

  /** A snapshot: the totals, revenue in currency units, the counter maps and the time. */
  datatype Statistics = Statistics(
    totalOrders: int,
    totalPageViews: int,
    totalRevenue: real,
    ordersByStatus: map<string, int>,
    pageViewsByPage: map<string, int>,
    actionCounts: map<string, int>,
    timestamp: string)

  class AnalyticsService {
    var ordersByStatus: map<string, int>
    var pageViewsByPage: map<string, int>
    var actionCounts: map<string, int>
    var totalOrders: int
    var totalPageViews: int
    /** In cents. */
    var totalRevenue: int
    var recentAnalytics: seq<Event>
    /** Every record stored, in order of arrival. */
    ghost var received: seq<Event>
    /** The keys counted so far, in order. */
    ghost var statuses: seq<string>
    ghost var pages: seq<string>
    ghost var actions: seq<string>

    ghost predicate Valid()
      reads this
    {
      RecentValid() && OrdersValid() && PageViewsValid()
    }

    /** The list holds the last fifty records, newest first. */
    ghost predicate RecentValid()
      reads this`recentAnalytics, this`received
    {
      recentAnalytics == Latest(received, MaxAnalytics)
    }

    /** Each status counter counts its status; the total counts every order; revenue is a long. */
    ghost predicate OrdersValid()
      reads this`ordersByStatus, this`statuses, this`totalOrders, this`totalRevenue
    {
      ordersByStatus == Counts(statuses) && totalOrders == |statuses| && MinLong <= totalRevenue <= MaxLong
    }

    /** Each page and action counter counts its key; every page view has one page and one action. */
    ghost predicate PageViewsValid()
      reads this`pageViewsByPage, this`actionCounts, this`pages, this`actions, this`totalPageViews
    {
      && pageViewsByPage == Counts(pages) && actionCounts == Counts(actions)
      && totalPageViews == |pages| && |actions| == |pages|
    }

    constructor ()
      ensures Valid()
      ensures recentAnalytics == [] && totalOrders == 0 && totalPageViews == 0 && totalRevenue == 0
      ensures ordersByStatus == map[] && pageViewsByPage == map[] && actionCounts == map[]
    {
      ordersByStatus := map[];
      pageViewsByPage := map[];
      actionCounts := map[];
      totalOrders := 0;
      totalPageViews := 0;
      totalRevenue := 0;
      recentAnalytics := [];
      received := [];
      statuses := [];
      pages := [];
      actions := [];
    }

    /**
     * consumeAnalytics: the parsed record, stamped with the time it arrived,
     * goes first; past fifty records the oldest is dropped.
     */
    method ConsumeAnalytics(analyticsData: string, now: string)
      requires RecentValid()
      modifies this`recentAnalytics, this`received
      ensures RecentValid()
      ensures recentAnalytics == PushFront(old(recentAnalytics), Parsed(analyticsData)[ReceivedAt := Text(now)], MaxAnalytics)
    {
      var data := ParseJson(analyticsData);
      data := data[ReceivedAt := Text(now)];
      PushFrontLatest(received, data, MaxAnalytics);
      var recent := [data] + recentAnalytics;
      if |recent| > MaxAnalytics {
        recent := recent[..|recent| - 1];
      }
      recentAnalytics, received := recent, received + [data];
    }

    /** updateOrderStats: one more order, one more for its status, and the amount added in cents. */
    method UpdateOrderStats(status: string, amount: real)
      requires OrdersValid()
      modifies this`totalOrders, this`totalRevenue, this`ordersByStatus, this`statuses
      ensures OrdersValid()
      ensures totalOrders == old(totalOrders) + 1
      ensures totalRevenue == Wrap(old(totalRevenue) + ToLong(amount * 100.0))
      ensures ordersByStatus == Increment(old(ordersByStatus), status)
    {
      CountsSnoc(statuses, status);
      totalOrders := totalOrders + 1;
      totalRevenue := Wrap(totalRevenue + ToLong(amount * 100.0));
      ordersByStatus, statuses := Increment(ordersByStatus, status), statuses + [status];
    }

    /** updatePageViewStats: one more page view, one more for its page and one more for its action. */
    method UpdatePageViewStats(page: string, action: string)
      requires PageViewsValid()
      modifies this`totalPageViews, this`pageViewsByPage, this`actionCounts, this`pages, this`actions
      ensures PageViewsValid()
      ensures totalPageViews == old(totalPageViews) + 1
      ensures pageViewsByPage == Increment(old(pageViewsByPage), page)
      ensures actionCounts == Increment(old(actionCounts), action)
    {
      CountsSnoc(pages, page);
      CountsSnoc(actions, action);
      totalPageViews := totalPageViews + 1;
      pageViewsByPage, pages := Increment(pageViewsByPage, page), pages + [page];
      actionCounts, actions := Increment(actionCounts, action), actions + [action];
    }

    /**
     * getStatistics: the totals, the revenue converted from cents, copies of
     * the counter maps and the time. The page and action counters both add up
     * to the page-view total, and the status counters to the order total.
     */
    method GetStatistics(now: string) returns (stats: Statistics)
      requires OrdersValid() && PageViewsValid()
      ensures stats.totalOrders == totalOrders && stats.totalPageViews == totalPageViews
      ensures stats.totalRevenue * 100.0 == totalRevenue as real
      ensures stats.ordersByStatus == ordersByStatus && stats.pageViewsByPage == pageViewsByPage
      ensures stats.actionCounts == actionCounts && stats.timestamp == now
      ensures Total(stats.ordersByStatus) == stats.totalOrders
      ensures Total(stats.pageViewsByPage) == stats.totalPageViews == Total(stats.actionCounts)
    {
      stats := Statistics(totalOrders, totalPageViews, totalRevenue as real / 100.0,
                          ordersByStatus, pageViewsByPage, actionCounts, now);
      TotalCounts(statuses);
      TotalCounts(pages);
      TotalCounts(actions);
    }

    /** getRecentAnalytics: a new list with the same records. */
    method GetRecentAnalytics() returns (copy: array<Event>)
      ensures fresh(copy) && copy[..] == recentAnalytics
    {
      copy := CopyOf(recentAnalytics);
    }
  }
}
