/** Reserved funds: the snapshot of internal/app/funds.go, taken while matching goes on. */
module Funds {
  import opened Basics
  import opened Records
  import opened Trade
  import opened Terms
  import opened SwapState
  import P = Protocol
  import opened Relay
  import opened RelaySafety

  /** One reservation per own order and per own acceptance, however many records mention it. */
  datatype Key = MakerOrder(orderID: string) | TakerAcceptance(acceptanceID: string)

  type Entries = map<Key, Amount>

  /** A big integer may carry a plus sign. */
  function Unsigned(s: string): string {
    if |s| > 0 && s[0] == '+' then s[1..] else s
  }

  predicate AmountValid(a: Amount) {
    (a.asset == "QDAY" || a.asset == "BTC") && AllDigits(Unsigned(a.atomic)) && Value(Unsigned(a.atomic)) > 0
  }

  /** The `add` closure: a key met again must carry the same signed amount. */
  function Added(entries: Entries, key: Key, a: Amount): Option<Entries> {
    if !AmountValid(a) then None
    else if key in entries then if entries[key] == a then Some(entries) else None
    else Some(entries[key := a])
  }

  /** Whether a swap still holds its amount back. */
  predicate Reserves(r: Swap) {
    && !P.Terminal(r.phase) && r.phase != WaitingForRefund && r.phase != Refunding
    && (if r.role.Maker? then r.makerFunding.None?
        else if r.version == ASYNC_VERSION then
          !r.takerFundingSubmitted && (r.phase == Phase.Matched || r.phase == AsyncTakerFunding)
        else r.takerFunding.None?)
  }

  function SwapKey(r: Swap): Key {
    if r.role.Maker? then MakerOrder(r.order.id) else TakerAcceptance(r.acceptance.id)
  }

  function SwapAmount(r: Swap): Amount {
    if r.role.Maker? then r.order.order.give else r.order.order.receive
  }

  /** A pending acceptance of one's own, with the order it accepts. */
  datatype Negotiation = Negotiation(order: SignedOrder, acceptance: SignedAcceptance)

  /** On every reachable record an amount is held back exactly while the swap is neither over nor being refunded
      and this participant's own funding is not out. */
  lemma ReservesWhileNotOut(c: Crypto, r: Swap, h: seq<P.Event>)
    requires P.Fresh(r) && P.Accepted(c, r, h)
    ensures
      var rec := P.Replay(c, r, h).value.rec;
      Reserves(rec) <==>
      (rec.phase == Phase.Matched || P.Running(rec.phase)) && (if rec.role.Maker? then rec.makerFunding.None? else !rec.takerFundingSubmitted)
  {
    P.EvidenceAlways(c, r, h);
    hide P.Replay, Opens;
  }

  // ----- totals

  function AtomicOf(a: Amount, asset: string): nat {
    if a.asset == asset && AllDigits(Unsigned(a.atomic)) then Value(Unsigned(a.atomic)) else 0
  }

  /** What an order names counts as what it says, on its own asset and on no other. */
  lemma OrderAmountCounts(give: Amount, receive: Amount)
    requires PairValid(give, receive)
    ensures AmountValid(give) && AtomicOf(give, give.asset) == Value(give.atomic) && AtomicOf(give, receive.asset) == 0
    ensures AmountValid(receive) && AtomicOf(receive, receive.asset) == Value(receive.atomic) && AtomicOf(receive, give.asset) == 0
  {
    DigitsUnsigned(give.atomic);
    DigitsUnsigned(receive.atomic);
    hide Value, Unsigned;
  }

  lemma DigitsUnsigned(v: string)
    requires AtomicValid(v)
    ensures Unsigned(v) == v && Value(v) > 0
  {
    assert IsDigit(v[0]);
    PositiveDigits(v);
  }

  lemma {:induction false} PositiveDigits(v: string)
    requires AllDigits(v) && |v| > 0 && v[0] != '0'
    ensures Value(v) > 0
  {
    if |v| > 1 {
      PositiveDigits(v[..|v| - 1]);
    }
  }

  /** The sum over all entries; which one is taken first makes no difference. */
  ghost function Total(entries: Entries, asset: string): nat
    decreases |entries|
  {
    if entries == map[] then 0
    else
      var k :| k in entries;
      AtomicOf(entries[k], asset) + Total(entries - {k}, asset)
  }

  /** Order independence: any entry may be the first. */
  lemma {:induction false} TotalAnyFirst(entries: Entries, asset: string, k: Key)
    requires k in entries
    ensures Total(entries, asset) == AtomicOf(entries[k], asset) + Total(entries - {k}, asset)
    decreases |entries|
  {
    var first :| first in entries && Total(entries, asset) == AtomicOf(entries[first], asset) + Total(entries - {first}, asset);
    if first != k {
      TotalAnyFirst(entries - {first}, asset, k);
      TotalAnyFirst(entries - {k}, asset, first);
      assert entries - {first} - {k} == entries - {k} - {first};
    }
  }

  // ----- the snapshot

  /** Every source of a reservation, in the order the source adds them. */
  function Sources(listed: seq<SignedOrder>, pending: seq<Negotiation>, swaps: seq<Swap>, me: string, now: int)
    : seq<(Key, Amount)>
  {
    FromOrders(listed, me) + FromPending(pending, now) + FromSwaps(swaps)
  }

  function FromOrders(listed: seq<SignedOrder>, me: string): seq<(Key, Amount)> {
    if |listed| == 0 then []
    else
      var last := listed[|listed| - 1];
      FromOrders(listed[..|listed| - 1], me) +
      (if last.order.makerPublicKey == me then [(MakerOrder(last.id), last.order.give)] else [])
  }

  function FromPending(pending: seq<Negotiation>, now: int): seq<(Key, Amount)> {
    if |pending| == 0 then []
    else
      var last := pending[|pending| - 1];
      FromPending(pending[..|pending| - 1], now) +
      (if last.acceptance.acceptance.expiresAt <= now then []
       else [(TakerAcceptance(last.acceptance.id), last.order.order.receive)])
  }

  function FromSwaps(swaps: seq<Swap>): seq<(Key, Amount)> {
    if |swaps| == 0 then []
    else
      var last := swaps[|swaps| - 1];
      FromSwaps(swaps[..|swaps| - 1]) + (if Reserves(last) then [(SwapKey(last), SwapAmount(last))] else [])
  }

  /** The entries hold exactly the sources: every source under its key, and no other key. */
  predicate Holds(entries: Entries, sources: seq<(Key, Amount)>) {
    && (forall i :: 0 <= i < |sources| ==> sources[i].0 in entries && entries[sources[i].0] == sources[i].1)
    && (forall k :: k in entries ==> exists i :: 0 <= i < |sources| && sources[i].0 == k)
  }

  /** Whether sources can be added up: each amount is well formed, and one key always has one amount. */
  predicate Reservable(sources: seq<(Key, Amount)>) {
    && (forall i :: 0 <= i < |sources| ==> AmountValid(sources[i].1))
    && (forall i, j :: 0 <= i < |sources| && 0 <= j < |sources| && sources[i].0 == sources[j].0 ==>
          sources[i].1 == sources[j].1)
  }

  /** A selected order and its swap, or an acceptance of one's own and the swap it led to, are one reservation:
      they go under one key with one amount, what the order gives or what it asks for. */
  lemma OneReservation(n: Negotiation, r: Swap, now: int)
    requires Reserves(r) && r.order == n.order && r.acceptance == n.acceptance && n.acceptance.acceptance.expiresAt > now
    ensures r.role.Maker? ==>
              && FromSwaps([r]) == [(MakerOrder(n.order.id), n.order.order.give)]
              && FromOrders([n.order], n.order.order.makerPublicKey) == FromSwaps([r])
    ensures r.role.Taker? ==>
              && FromSwaps([r]) == [(TakerAcceptance(n.acceptance.id), n.order.order.receive)]
              && FromPending([n], now) == FromSwaps([r])
  {
    hide Reserves;
    assert [r][..0] == [] && [n][..0] == [] && [n.order][..0] == [];
  }

  lemma PartReservable(part: seq<(Key, Amount)>, whole: seq<(Key, Amount)>)
    requires part <= whole && Reservable(whole)
    ensures Reservable(part)
  {
    assert forall i :: 0 <= i < |part| ==> part[i] == whole[i];
  }

  predicate AllVerified(c: Crypto, listed: seq<SignedOrder>, now: int) {
    forall i :: 0 <= i < |listed| ==> OrderVerified(c, listed[i], now)
  }

  lemma {:induction false} OrdersPart(listed: seq<SignedOrder>, me: string, i: nat)
    requires i <= |listed|
    ensures FromOrders(listed[..i], me) <= FromOrders(listed, me)
    decreases |listed|
  {
    if i == |listed| {
      assert listed[..i] == listed;
    } else {
      OrdersPart(listed[..|listed| - 1], me, i);
      assert listed[..|listed| - 1][..i] == listed[..i];
    }
  }

  lemma {:induction false} PendingPart(pending: seq<Negotiation>, now: int, i: nat)
    requires i <= |pending|
    ensures FromPending(pending[..i], now) <= FromPending(pending, now)
    decreases |pending|
  {
    if i == |pending| {
      assert pending[..i] == pending;
    } else {
      PendingPart(pending[..|pending| - 1], now, i);
      assert pending[..|pending| - 1][..i] == pending[..i];
    }
  }

  lemma {:induction false} SwapsPart(swaps: seq<Swap>, i: nat)
    requires i <= |swaps|
    ensures FromSwaps(swaps[..i]) <= FromSwaps(swaps)
    decreases |swaps|
  {
    if i == |swaps| {
      assert swaps[..i] == swaps;
    } else {
      SwapsPart(swaps[..|swaps| - 1], i);
      assert swaps[..|swaps| - 1][..i] == swaps[..i];
    }
  }

  datatype Reservations = Reservations(qday: nat, bitcoin: nat, orders: nat)

  lemma AddedReservable(entries: Entries, sources: seq<(Key, Amount)>, key: Key, a: Amount)
    requires Holds(entries, sources) && Reservable(sources)
    ensures Added(entries, key, a).Some? <==> Reservable(sources + [(key, a)])
  {
    hide AmountValid;
    var more := sources + [(key, a)];
    assert more[|sources|] == (key, a) && forall i :: 0 <= i < |sources| ==> more[i] == sources[i];
    if key in entries {
      var i :| 0 <= i < |sources| && sources[i].0 == key;
      assert more[i].0 == more[|sources|].0;
    }
  }

  lemma AddedHolds(entries: Entries, sources: seq<(Key, Amount)>, key: Key, a: Amount)
    requires Holds(entries, sources) && Added(entries, key, a).Some?
    ensures Holds(Added(entries, key, a).value, sources + [(key, a)])
  {
    hide AmountValid;
    var after, more := Added(entries, key, a).value, sources + [(key, a)];
    assert more[|sources|] == (key, a) && forall i :: 0 <= i < |sources| ==> more[i] == sources[i];
    forall k | k in after
      ensures exists i :: 0 <= i < |more| && more[i].0 == k
    {
      if k in entries {
        var i :| 0 <= i < |sources| && sources[i].0 == k;
        assert more[i].0 == k;
      }
    }
  }

  method AddSource(entries: Entries, ghost sources: seq<(Key, Amount)>, key: Key, a: Amount)
    returns (r: Option<Entries>)
    requires Holds(entries, sources) && Reservable(sources)
    ensures r.Some? ==> Holds(r.value, sources + [(key, a)])
    ensures r.Some? <==> Reservable(sources + [(key, a)])
  {
    hide Holds, Reservable, AmountValid;
    r := Added(entries, key, a);
    AddedReservable(entries, sources, key, a);
    if r.Some? {
      AddedHolds(entries, sources, key, a);
    }
  }

  /** reservedFunds, on what the relay listed and what the journal holds; none exactly when a listed order
      does not verify, an amount is malformed, or two records give one key different amounts. */
  method ReservedFunds(c: Crypto, listed: seq<SignedOrder>, pending: seq<Negotiation>, swaps: seq<Swap>, me: string, now: int)
    returns (r: Option<Reservations>, entries: Entries)
    ensures r.Some? <==> AllVerified(c, listed, now) && Reservable(Sources(listed, pending, swaps, me, now))
    ensures r.Some? ==>
              && Holds(entries, Sources(listed, pending, swaps, me, now))
              && r.value.qday == Total(entries, "QDAY") && r.value.bitcoin == Total(entries, "BTC")
              && r.value.orders == |FromOrders(listed, me)|
  {
    hide FromOrders, FromPending, FromSwaps, Holds, Total, AllVerified, Reservable;
    r := None;
    var orders: nat;
    var listedAll: bool;
    listedAll, entries, orders := AddOrders(c, listed, me, now);
    PartsReservable(listed, pending, swaps, me, now);
    if !listedAll {
      return;
    }
    var pendingAll: bool;
    pendingAll, entries := AddPending(entries, FromOrders(listed, me), pending, now);
    if !pendingAll {
      return;
    }
    var swapsAll: bool;
    swapsAll, entries := AddSwaps(entries, FromOrders(listed, me) + FromPending(pending, now), swaps);
    if !swapsAll {
      return;
    }
    var qday, bitcoin := Totals(entries);
    r := Some(Reservations(qday, bitcoin, orders));
  }

  lemma PartsReservable(listed: seq<SignedOrder>, pending: seq<Negotiation>, swaps: seq<Swap>, me: string, now: int)
    ensures
      Reservable(Sources(listed, pending, swaps, me, now)) ==>
        Reservable(FromOrders(listed, me)) && Reservable(FromOrders(listed, me) + FromPending(pending, now))
  {
    hide Reservable, FromOrders, FromPending, FromSwaps;
    var sources := Sources(listed, pending, swaps, me, now);
    if Reservable(sources) {
      PartReservable(FromOrders(listed, me), sources);
      PartReservable(FromOrders(listed, me) + FromPending(pending, now), sources);
    }
  }

  /** The listed orders: each is verified, and the own ones are added. */
  method AddOrders(c: Crypto, listed: seq<SignedOrder>, me: string, now: int)
    returns (all: bool, entries: Entries, orders: nat)
    ensures all <==> AllVerified(c, listed, now) && Reservable(FromOrders(listed, me))
    ensures all ==> Holds(entries, FromOrders(listed, me)) && orders == |FromOrders(listed, me)|
  {
    hide FromOrders, Holds, Reservable, OrderVerified;
    all, entries, orders := false, map[], 0;
    NothingHeld(listed, me);
    for i := 0 to |listed|
      invariant Holds(entries, FromOrders(listed[..i], me)) && orders == |FromOrders(listed[..i], me)|
      invariant Reservable(FromOrders(listed[..i], me)) && forall k :: 0 <= k < i ==> OrderVerified(c, listed[k], now)
    {
      OrdersGrow(listed, me, i);
      var o := listed[i];
      if !OrderVerified(c, o, now) {
        return;
      }
      if o.order.makerPublicKey == me {
        var added := AddSource(entries, FromOrders(listed[..i], me), MakerOrder(o.id), o.order.give);
        if added.None? {
          OrdersPartReservable(listed, me, i + 1);
          return;
        }
        entries, orders := added.value, orders + 1;
      }
    }
    assert listed[..|listed|] == listed;
    all := true;
  }

  lemma OrdersPartReservable(listed: seq<SignedOrder>, me: string, i: nat)
    requires i <= |listed| && !Reservable(FromOrders(listed[..i], me))
    ensures !Reservable(FromOrders(listed, me))
  {
    hide Reservable, FromOrders;
    OrdersPart(listed, me, i);
    if Reservable(FromOrders(listed, me)) {
      PartReservable(FromOrders(listed[..i], me), FromOrders(listed, me));
    }
  }

  /** The own acceptances still pending. */
  method AddPending(held: Entries, ghost before: seq<(Key, Amount)>, pending: seq<Negotiation>, now: int)
    returns (all: bool, entries: Entries)
    requires Holds(held, before) && Reservable(before)
    ensures all <==> Reservable(before + FromPending(pending, now))
    ensures all ==> Holds(entries, before + FromPending(pending, now))
  {
    hide FromPending, Holds, Reservable;
    all, entries := false, held;
    NothingPending(pending, now, before);
    for i := 0 to |pending|
      invariant Holds(entries, before + FromPending(pending[..i], now)) && Reservable(before + FromPending(pending[..i], now))
    {
      PendingGrows(pending, now, i, before);
      var n := pending[i];
      if n.acceptance.acceptance.expiresAt > now {
        var key := TakerAcceptance(n.acceptance.id);
        var added := AddSource(entries, before + FromPending(pending[..i], now), key, n.order.order.receive);
        if added.None? {
          PendingPartReservable(pending, now, i + 1, before);
          return;
        }
        entries := added.value;
      }
    }
    assert pending[..|pending|] == pending;
    all := true;
  }

  lemma PendingPartReservable(pending: seq<Negotiation>, now: int, i: nat, before: seq<(Key, Amount)>)
    requires i <= |pending| && !Reservable(before + FromPending(pending[..i], now))
    ensures !Reservable(before + FromPending(pending, now))
  {
    hide Reservable, FromPending;
    PendingPart(pending, now, i);
    if Reservable(before + FromPending(pending, now)) {
      PartReservable(before + FromPending(pending[..i], now), before + FromPending(pending, now));
    }
  }

  /** The journaled swaps that still hold their amount back. */
  method AddSwaps(held: Entries, ghost before: seq<(Key, Amount)>, swaps: seq<Swap>)
    returns (all: bool, entries: Entries)
    requires Holds(held, before) && Reservable(before)
    ensures all <==> Reservable(before + FromSwaps(swaps))
    ensures all ==> Holds(entries, before + FromSwaps(swaps))
  {
    hide FromSwaps, Holds, Reservable, Reserves;
    all, entries := false, held;
    NoSwaps(swaps, before);
    for i := 0 to |swaps|
      invariant Holds(entries, before + FromSwaps(swaps[..i])) && Reservable(before + FromSwaps(swaps[..i]))
    {
      SwapsGrow(swaps, i, before);
      var s := swaps[i];
      if Reserves(s) {
        var added := AddSource(entries, before + FromSwaps(swaps[..i]), SwapKey(s), SwapAmount(s));
        if added.None? {
          SwapsPartReservable(swaps, i + 1, before);
          return;
        }
        entries := added.value;
      }
    }
    assert swaps[..|swaps|] == swaps;
    all := true;
  }

  lemma SwapsPartReservable(swaps: seq<Swap>, i: nat, before: seq<(Key, Amount)>)
    requires i <= |swaps| && !Reservable(before + FromSwaps(swaps[..i]))
    ensures !Reservable(before + FromSwaps(swaps))
  {
    hide Reservable, FromSwaps;
    SwapsPart(swaps, i);
    if Reservable(before + FromSwaps(swaps)) {
      PartReservable(before + FromSwaps(swaps[..i]), before + FromSwaps(swaps));
    }
  }

  lemma NothingHeld(listed: seq<SignedOrder>, me: string)
    ensures FromOrders(listed[..0], me) == [] && Holds(map[], []) && Reservable([])
  {
  }

  lemma NothingPending(pending: seq<Negotiation>, now: int, before: seq<(Key, Amount)>)
    ensures before + FromPending(pending[..0], now) == before
  {
  }

  lemma NoSwaps(swaps: seq<Swap>, before: seq<(Key, Amount)>)
    ensures before + FromSwaps(swaps[..0]) == before
  {
  }

  lemma OrdersGrow(listed: seq<SignedOrder>, me: string, i: nat)
    requires i < |listed|
    ensures
      var so := FromOrders(listed[..i], me);
      FromOrders(listed[..i + 1], me) ==
      if listed[i].order.makerPublicKey == me then so + [(MakerOrder(listed[i].id), listed[i].order.give)] else so
  {
    assert listed[..i + 1][..i] == listed[..i];
  }

  lemma PendingGrows(pending: seq<Negotiation>, now: int, i: nat, before: seq<(Key, Amount)>)
    requires i < |pending|
    ensures
      var so := before + FromPending(pending[..i], now);
      before + FromPending(pending[..i + 1], now) ==
      if pending[i].acceptance.acceptance.expiresAt <= now then so
      else so + [(TakerAcceptance(pending[i].acceptance.id), pending[i].order.order.receive)]
  {
    assert pending[..i + 1][..i] == pending[..i];
  }

  lemma SwapsGrow(swaps: seq<Swap>, i: nat, before: seq<(Key, Amount)>)
    requires i < |swaps|
    ensures
      var so := before + FromSwaps(swaps[..i]);
      before + FromSwaps(swaps[..i + 1]) == if Reserves(swaps[i]) then so + [(SwapKey(swaps[i]), SwapAmount(swaps[i]))] else so
  {
    assert swaps[..i + 1][..i] == swaps[..i];
  }

  /** The final loop over the map, in whatever order it yields its entries. */
  method Totals(entries: Entries) returns (qday: nat, bitcoin: nat)
    ensures qday == Total(entries, "QDAY") && bitcoin == Total(entries, "BTC")
  {
    qday, bitcoin := 0, 0;
    var rest := entries;
    while rest != map[]
      invariant qday + Total(rest, "QDAY") == Total(entries, "QDAY")
      invariant bitcoin + Total(rest, "BTC") == Total(entries, "BTC")
      decreases |rest|
    {
      var k :| k in rest;
      TotalAnyFirst(rest, "QDAY", k);
      TotalAnyFirst(rest, "BTC", k);
      var a := rest[k];
      qday, bitcoin := qday + AtomicOf(a, "QDAY"), bitcoin + AtomicOf(a, "BTC");
      rest := rest - {k};
    }
  }
}
