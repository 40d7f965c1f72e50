/** The relay's order listing, Store.List of internal/relay/store.go, and the loop over its pages in
    reservedFunds of internal/app/funds.go. */
module Listing {
  import opened Basics
  import opened Records
  import opened Trade
  import opened Relay
  import opened RelaySafety
  import opened RelayLimits
  import S = Snapshot

  /** Texts left empty do not filter; no status stands for all. */
  datatype Query = Query(status: Option<Status>, market: string, giveAsset: string, maker: string, page: int, limit: int)

  datatype ResultPage = ResultPage(items: seq<OrderRecord>, page: int, pageSize: int, total: nat, totalPages: nat)

  predicate Filtered(wanted: string, actual: string) {
    wanted != "" && actual != wanted
  }

  predicate Matches(q: Query, r: OrderRecord) {
    && (q.status.Some? ==> r.status == q.status.value)
    && !Filtered(q.market, r.signed.order.market) && !Filtered(q.giveAsset, r.signed.order.give.asset)
    && !Filtered(q.maker, r.signed.order.makerPublicKey)
  }

  function Matching(orders: map<string, OrderRecord>, q: Query, now: int): set<string> {
    set k | k in orders && Matches(q, At(orders[k], now))
  }

  // ----- the order of the listing

  /** bytes.Compare(a, b) > 0 */
  predicate Greater(a: string, b: string) {
    |a| > 0 && (|b| == 0 || a[0] > b[0] || (a[0] == b[0] && Greater(a[1..], b[1..])))
  }

  lemma {:induction false} GreaterTotal(a: string, b: string)
    requires a != b
    ensures Greater(a, b) || Greater(b, a)
  {
    if |a| > 0 && |b| > 0 && a[0] == b[0] {
      assert a == [a[0]] + a[1..] && b == [b[0]] + b[1..];
      GreaterTotal(a[1..], b[1..]);
    }
  }

  /** Newest first, equal times by descending ID. */
  predicate Precedes(orders: map<string, OrderRecord>, a: string, b: string)
    requires a in orders && b in orders
  {
    var x, y := orders[a].signed.order.createdAt, orders[b].signed.order.createdAt;
    x > y || (x == y && Greater(a, b))
  }

  predicate Sorted(orders: map<string, OrderRecord>, all: seq<string>)
    requires forall k :: k in all ==> k in orders
  {
    forall i :: 0 <= i < |all| - 1 ==> Precedes(orders, all[i], all[i + 1])
  }

  predicate Distinct(all: seq<string>) {
    forall i, j :: 0 <= i < j < |all| ==> all[i] != all[j]
  }

  /** Exactly the matching orders, each once, in the order of the listing. */
  ghost predicate Lists(all: seq<string>, orders: map<string, OrderRecord>, q: Query, now: int) {
    && (forall k :: k in all <==> k in Matching(orders, q, now))
    && (forall k :: k in all ==> k in orders) && Sorted(orders, all) && Distinct(all)
  }

  lemma {:induction false} GreaterTransitive(a: string, b: string, c: string)
    requires Greater(a, b) && Greater(b, c)
    ensures Greater(a, c)
  {
    if |c| > 0 && a[0] == b[0] && b[0] == c[0] {
      GreaterTransitive(a[1..], b[1..], c[1..]);
    }
  }

  lemma PrecedesTransitive(orders: map<string, OrderRecord>, a: string, b: string, c: string)
    requires a in orders && b in orders && c in orders && Precedes(orders, a, b) && Precedes(orders, b, c)
    ensures Precedes(orders, a, c)
  {
    if Greater(a, b) && Greater(b, c) {
      GreaterTransitive(a, b, c);
    }
  }

  lemma {:induction false} NeverBoth(a: string, b: string)
    ensures !(Greater(a, b) && Greater(b, a))
  {
    if |a| > 0 && |b| > 0 && a[0] == b[0] {
      NeverBoth(a[1..], b[1..]);
    }
  }

  /** The first of a sorted listing precedes all others. */
  lemma {:induction false} FirstPrecedes(orders: map<string, OrderRecord>, all: seq<string>, i: nat)
    requires (forall k :: k in all ==> k in orders) && Sorted(orders, all) && 0 < i < |all|
    ensures Precedes(orders, all[0], all[i])
  {
    hide Precedes;
    assert Precedes(orders, all[i - 1], all[i]);
    if i > 1 {
      FirstPrecedes(orders, all, i - 1);
      PrecedesTransitive(orders, all[0], all[i - 1], all[i]);
    }
  }

  lemma SameFirst(orders: map<string, OrderRecord>, a: seq<string>, b: seq<string>)
    requires (forall k :: k in a <==> k in b) && (forall k :: k in a ==> k in orders) && |a| > 0 && |b| > 0
    requires Sorted(orders, a) && Sorted(orders, b)
    ensures a[0] == b[0]
  {
    hide Sorted, Greater;
    assert b[0] in a && a[0] in b;
    var i :| 0 <= i < |a| && a[i] == b[0];
    var j :| 0 <= j < |b| && b[j] == a[0];
    if i > 0 && j > 0 {
      FirstPrecedes(orders, a, i);
      FirstPrecedes(orders, b, j);
      NeverBoth(a[0], b[0]);
    }
  }

  /** An order of the listing, so a listing, is determined by what it lists. */
  lemma {:induction false} ListingUnique(orders: map<string, OrderRecord>, a: seq<string>, b: seq<string>)
    requires (forall k :: k in a <==> k in b) && (forall k :: k in a ==> k in orders)
    requires Sorted(orders, a) && Sorted(orders, b) && Distinct(a) && Distinct(b)
    ensures a == b
  {
    hide Precedes;
    assert (|a| > 0 ==> a[0] in a) && (|b| > 0 ==> b[0] in b);
    if |a| > 0 {
      SameFirst(orders, a, b);
      forall k
        ensures k in a[1..] <==> k in b[1..]
      {
        RestOf(a, k);
        RestOf(b, k);
      }
      ListingUnique(orders, a[1..], b[1..]);
      assert a == [a[0]] + a[1..] && b == [b[0]] + b[1..];
    }
  }

  lemma RestOf(all: seq<string>, k: string)
    requires |all| > 0 && Distinct(all)
    ensures k in all[1..] <==> k in all && k != all[0]
  {
  }

  function RecordsOf(all: seq<string>, orders: map<string, OrderRecord>, now: int): (r: seq<OrderRecord>)
    requires forall k :: k in all ==> k in orders
  {
    seq(|all|, i requires 0 <= i < |all| => At(orders[all[i]], now))
  }

  function LimitOf(q: Query): int {
    if q.limit < 1 then 20 else if q.limit > 100 then 100 else q.limit
  }

  /** One page of everything listed. */
  function PageAt(all: seq<OrderRecord>, q: Query): ResultPage {
    var page, limit := Max(q.page, 1), LimitOf(q);
    var from := if (page - 1) * limit > |all| then |all| else (page - 1) * limit;
    var to := if from + limit > |all| then |all| else from + limit;
    ResultPage(all[from..to], page, limit, |all|, if |all| > 0 then (|all| + limit - 1) / limit else 0)
  }

  /** One more order between those that precede it and those it precedes. */
  lemma InsertedSorted(orders: map<string, OrderRecord>, all: seq<string>, i: nat, k: string)
    requires k in orders && (forall x :: x in all ==> x in orders) && Sorted(orders, all) && i <= |all|
    requires (i > 0 ==> Precedes(orders, all[i - 1], k)) && (i < |all| ==> Precedes(orders, k, all[i]))
    ensures forall x :: x in all[..i] + [k] + all[i..] ==> x in orders
    ensures Sorted(orders, all[..i] + [k] + all[i..])
  {
    hide Precedes;
    var r := all[..i] + [k] + all[i..];
    forall j | 0 <= j < |r| - 1
      ensures Precedes(orders, r[j], r[j + 1])
    {
      if j + 1 < i {
        assert Precedes(orders, all[j], all[j + 1]);
      } else if j > i {
        assert Precedes(orders, all[j - 1], all[j]);
      }
    }
  }

  lemma InsertedDistinct(all: seq<string>, i: nat, k: string)
    requires k !in all && Distinct(all) && i <= |all|
    ensures Distinct(all[..i] + [k] + all[i..]) && forall x :: x in all[..i] + [k] + all[i..] <==> x in all || x == k
  {
    var r := all[..i] + [k] + all[i..];
    forall j, l | 0 <= j < l < |r|
      ensures r[j] != r[l]
    {
      assert r[j] == if j < i then all[j] else if j == i then k else all[j - 1];
      assert r[l] == if l < i then all[l] else if l == i then k else all[l - 1];
    }
    assert all == all[..i] + all[i..];
  }

  /** The place of one more order in a sorted listing. */
  method Insert(orders: map<string, OrderRecord>, all: seq<string>, k: string) returns (r: seq<string>)
    requires k in orders && k !in all && Distinct(all) && (forall x :: x in all ==> x in orders) && Sorted(orders, all)
    ensures (forall x :: x in r <==> x in all || x == k) && Distinct(r) && Sorted(orders, r)
  {
    hide Sorted, Distinct, Precedes;
    var i := 0;
    while i < |all| && !Precedes(orders, k, all[i])
      invariant i <= |all| && (i > 0 ==> Precedes(orders, all[i - 1], k))
    {
      PrecedesTotal(orders, all[i], k);
      i := i + 1;
    }
    InsertedSorted(orders, all, i, k);
    InsertedDistinct(all, i, k);
    r := all[..i] + [k] + all[i..];
  }

  lemma PrecedesTotal(orders: map<string, OrderRecord>, a: string, b: string)
    requires a in orders && b in orders && a != b
    ensures Precedes(orders, a, b) || Precedes(orders, b, a)
  {
    GreaterTotal(a, b);
  }

  /** Store.List: scan the bucket, keep what matches, sort, cut out the page. */
  method List(orders: map<string, OrderRecord>, q: Query, now: int) returns (r: ResultPage)
    ensures exists all :: Lists(all, orders, q, now) && r == PageAt(RecordsOf(all, orders, now), q)
  {
    hide Matches, Precedes;
    var records: seq<string> := [];
    var rest := orders.Keys;
    while rest != {}
      invariant rest <= orders.Keys && (forall k :: k in records ==> k in orders) && Sorted(orders, records) && Distinct(records)
      invariant forall k :: k in records <==> k in Matching(orders, q, now) && k !in rest
      decreases rest
    {
      var k :| k in rest;
      rest := rest - {k};
      if Matches(q, At(orders[k], now)) {
        records := Insert(orders, records, k);
      }
    }
    assert Lists(records, orders, q, now);
    r := PageAt(RecordsOf(records, orders, now), q);
  }

  /** What is listed: exactly the orders of the wanted status now, market, asset and maker, each of these counting
      only if given; newer ones first. */
  lemma ListedExactly(all: seq<string>, orders: map<string, OrderRecord>, q: Query, now: int)
    requires Lists(all, orders, q, now)
    ensures forall k :: k in all <==>
              && k in orders
              && (q.status.Some? ==> EffectiveStatus(orders[k], now) == q.status.value)
              && (q.market != "" ==> orders[k].signed.order.market == q.market)
              && (q.giveAsset != "" ==> orders[k].signed.order.give.asset == q.giveAsset)
              && (q.maker != "" ==> orders[k].signed.order.makerPublicKey == q.maker)
    ensures forall i, j :: 0 <= i < j < |all| ==>
              orders[all[i]].signed.order.createdAt >= orders[all[j]].signed.order.createdAt
  {
    forall i, j | 0 <= i < j < |all|
      ensures orders[all[i]].signed.order.createdAt >= orders[all[j]].signed.order.createdAt
    {
      NewestFirst(orders, all, i, j);
    }
    hide Sorted, Distinct;
  }

  /** A page holds twenty unless between one and a hundred are asked for. */
  lemma PageSizes(all: seq<OrderRecord>, q: Query)
    ensures
      var page := PageAt(all, q);
      page.pageSize == (if 1 <= q.limit <= 100 then q.limit else if q.limit > 100 then 100 else 20) && |page.items| <= page.pageSize
  {
  }

  lemma {:induction false} NewestFirst(orders: map<string, OrderRecord>, all: seq<string>, i: nat, j: nat)
    requires (forall k :: k in all ==> k in orders) && Sorted(orders, all) && i < j < |all|
    ensures orders[all[i]].signed.order.createdAt >= orders[all[j]].signed.order.createdAt
    decreases j
  {
    hide Greater;
    assert Precedes(orders, all[j - 1], all[j]);
    if i < j - 1 {
      NewestFirst(orders, all, i, j - 1);
    }
  }

  // ----- the pages together

  /** The pages, taken one after the other, are the listing: nothing twice, nothing left out. */
  function PagesTo(all: seq<OrderRecord>, q: Query, pages: nat): seq<OrderRecord> {
    if pages == 0 then [] else PagesTo(all, q, pages - 1) + PageAt(all, q.(page := pages)).items
  }

  lemma PagesCover(all: seq<OrderRecord>, q: Query, pages: nat)
    ensures pages * LimitOf(q) <= |all| ==> PagesTo(all, q, pages) == all[..pages * LimitOf(q)]
    ensures pages >= PageAt(all, q).totalPages ==> PagesTo(all, q, pages) == all
  {
    hide PagesTo;
    PagesPrefix(all, q, pages, pages * LimitOf(q));
    if pages >= PageAt(all, q).totalPages {
      EnoughPages(|all|, LimitOf(q), pages);
      assert all[..|all|] == all;
    }
  }

  /** What comes before one place and what stands between it and the next. */
  lemma Joined(all: seq<OrderRecord>, from: nat, to: nat)
    requires from <= to
    ensures (if from <= |all| then all[..from] else all) +
            (if from > |all| then [] else if to > |all| then all[from..] else all[from..to]) ==
            if to <= |all| then all[..to] else all
  {
  }

  lemma {:induction false} PagesPrefix(all: seq<OrderRecord>, q: Query, pages: nat, n: nat)
    requires n == pages * LimitOf(q)
    ensures PagesTo(all, q, pages) == if n <= |all| then all[..n] else all
  {
    hide LimitOf, PageAt;
    if pages > 0 {
      var before := (pages - 1) * LimitOf(q);
      NextPage(all, q, pages, before, n);
      PagesPrefix(all, q, pages - 1, before);
      Joined(all, before, n);
    }
  }

  /** Page `pages` runs from one multiple of the limit to the next. */
  lemma NextPage(all: seq<OrderRecord>, q: Query, pages: nat, from: nat, to: nat)
    requires pages > 0 && from == (pages - 1) * LimitOf(q) && to == pages * LimitOf(q)
    ensures to == from + LimitOf(q)
    ensures
      PageAt(all, q.(page := pages)).items ==
      if from > |all| then [] else if to > |all| then all[from..] else all[from..to]
  {
    assert LimitOf(q.(page := pages)) == LimitOf(q);
    hide LimitOf;
  }

  lemma EnoughPages(n: nat, limit: nat, pages: nat)
    requires limit > 0 && pages >= if n > 0 then (n + limit - 1) / limit else 0
    ensures pages * limit >= n
  {
    if n > 0 {
      var full := (n + limit - 1) / limit;
      assert full * limit > n - 1;
      assert pages * limit >= full * limit;
    }
  }

  // ----- the own orders

  /** What OrdersByMaker asks for. */
  function OwnQuery(me: string, page: int): Query {
    Query(Some(Open), "QDAY-BTC", "", me, page, 100)
  }

  /** The relay as it is when one request reaches it. */
  datatype Moment = Moment(db: Db, now: int)

  predicate OneMarket(orders: map<string, OrderRecord>) {
    forall k :: k in orders ==> orders[k].signed.order.market == "QDAY-BTC"
  }

  lemma StepOneMarket(c: Crypto, db: Db, op: Op, now: int)
    requires OneMarket(db.orders)
    ensures OneMarket(After(c, db, op, now).orders)
  {
    hide OneMarket, After;
    match op {
      case PublishOrder(_) => PublishOneMarket(c, db, op, now);
      case CancelOrder(_) => CloseOneMarket(c, db, op, now);
      case Match(_, _) => CloseOneMarket(c, db, op, now);
      case _ => S.OrdersLeft(c, db, op, now);
    }
  }

  lemma PublishOneMarket(c: Crypto, db: Db, op: Op, now: int)
    requires OneMarket(db.orders) && op.PublishOrder?
    ensures OneMarket(After(c, db, op, now).orders)
  {
    hide OrderVerified, OpenOf;
    VerifiedMarket(c, op.order, now);
  }

  lemma CloseOneMarket(c: Crypto, db: Db, op: Op, now: int)
    requires OneMarket(db.orders) && (op.CancelOrder? || op.Match?)
    ensures OneMarket(After(c, db, op, now).orders)
  {
    hide OrderCancellationVerified, AppendTo, MatchVerified;
  }

  lemma VerifiedMarket(c: Crypto, s: SignedOrder, now: int)
    ensures OrderVerified(c, s, now) ==> s.order.market == "QDAY-BTC"
  {
    hide SignatureValid, PairValid, KeysValid, MessageKeyValid, LifetimeValid;
  }

  lemma {:induction false} AlwaysOneMarket(c: Crypto, ops: seq<(Op, int)>)
    ensures OneMarket(Run(c, ops).orders)
  {
    if |ops| > 0 {
      hide OneMarket, After;
      AlwaysOneMarket(c, ops[..|ops| - 1]);
      StepOneMarket(c, Run(c, ops[..|ops| - 1]), ops[|ops| - 1].0, ops[|ops| - 1].1);
    } else {
      assert OneMarket(map[]);
    }
  }

  lemma OwnAreMatching(orders: map<string, OrderRecord>, me: string, now: int, page: int)
    requires OneMarket(orders) && me != ""
    ensures Matching(orders, OwnQuery(me, page), now) == OpenOf(orders, me, now)
  {
  }

  lemma {:induction false} DistinctCount(all: seq<string>, s: set<string>)
    requires Distinct(all) && forall k :: k in all <==> k in s
    ensures |all| == |s|
  {
    if |all| > 0 {
      var front, last := all[..|all| - 1], all[|all| - 1];
      assert all == front + [last];
      DistinctCount(front, s - {last});
      assert s == s - {last} + {last};
    } else {
      assert s == {};
    }
  }

  /** The maker quota keeps the listing on one page, so the relay is read at one moment: that page holds every
      own open order and no other. */
  lemma ListingIsOnePage(c: Crypto, ops: seq<(Op, int)>, me: string, now: int, all: seq<string>)
    requires ClockRuns(ops) && Clock(ops) <= now && me != ""
    requires Lists(all, Run(c, ops).orders, OwnQuery(me, 1), now)
    ensures
      var page := PageAt(RecordsOf(all, Run(c, ops).orders, now), OwnQuery(me, 1));
      page.totalPages <= 1 && S.Listing(Run(c, ops), me, now, SignedOf(page.items))
  {
    hide Run, OneMarket, OpenOf, OnePendingPerTaker, Pending, CancelledFor, Sorted;
    var orders := Run(c, ops).orders;
    AlwaysOneMarket(c, ops);
    OwnAreMatching(orders, me, now, 1);
    QuotasHold(c, ops, now);
    DistinctCount(all, OpenOf(orders, me, now));
    OnePageListing(Run(c, ops), me, now, all);
  }

  function SignedOf(items: seq<OrderRecord>): (r: seq<SignedOrder>) {
    seq(|items|, i requires 0 <= i < |items| => items[i].signed)
  }

  lemma OwnPage(records: seq<OrderRecord>, me: string)
    requires |records| <= 100
    ensures PageAt(records, OwnQuery(me, 1)).items == records && PageAt(records, OwnQuery(me, 1)).totalPages <= 1
  {
    assert records[0..|records|] == records;
  }

  lemma OnePageListing(db: Db, me: string, now: int, all: seq<string>)
    requires |all| <= 100 && (forall k :: k in all ==> k in db.orders) && forall k :: k in all <==> k in OpenOf(db.orders, me, now)
    ensures
      var page := PageAt(RecordsOf(all, db.orders, now), OwnQuery(me, 1));
      page.totalPages <= 1 && S.Listing(db, me, now, SignedOf(page.items))
  {
    hide OpenOf, PageAt;
    var records := RecordsOf(all, db.orders, now);
    OwnPage(records, me);
    var listed := SignedOf(records);
    forall o | o in OpenOf(db.orders, me, now)
      ensures db.orders[o].signed in listed
    {
      var i :| 0 <= i < |all| && all[i] == o;
      assert listed[i] == db.orders[o].signed;
    }
    forall i | 0 <= i < |listed|
      ensures S.IsOpenOrder(db, me, now, listed[i])
    {
      assert all[i] in OpenOf(db.orders, me, now) && db.orders[all[i]].signed == listed[i];
    }
  }

  /** The loop of reservedFunds over the pages, each asked for at its own moment: with at most a hundred own
      orders open it asks once. */
  method ListOwn(moments: nat -> Moment, me: string) returns (listed: Option<seq<SignedOrder>>)
    requires me != "" && OneMarket(moments(1).db.orders)
    ensures |OpenOf(moments(1).db.orders, me, moments(1).now)| <= 100 ==>
              listed.Some? && S.Listing(moments(1).db, me, moments(1).now, listed.value)
  {
    hide OneMarket, OpenOf, Sorted, PageAt, S.Listing;
    var items: seq<OrderRecord> := [];
    var page: nat := 1;
    ghost var few := |OpenOf(moments(1).db.orders, me, moments(1).now)| <= 100;
    while true
      invariant 1 <= page <= 10_000 && (page == 1 ==> items == []) && (few ==> page == 1)
      decreases 10_000 - page
    {
      var moment := moments(page);
      var result := List(moment.db.orders, OwnQuery(me, page), moment.now);
      if few {
        ghost var all :| Lists(all, moment.db.orders, OwnQuery(me, page), moment.now) &&
                         result == PageAt(RecordsOf(all, moment.db.orders, moment.now), OwnQuery(me, page));
        OwnAreMatching(moment.db.orders, me, moment.now, 1);
        DistinctCount(all, OpenOf(moment.db.orders, me, moment.now));
        OnePageListing(moment.db, me, moment.now, all);
      }
      items := items + result.items;
      if page >= result.totalPages {
        assert few ==> items == result.items;
        return Some(SignedOf(items));
      }
      if result.totalPages > 10_000 {
        return None;
      }
      page := page + 1;
    }
  }
}
