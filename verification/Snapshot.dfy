/** Reading the relay first and the journal afterwards, while matching goes on in between: why
    reservedFunds never misses an own order. */
module Snapshot {
  import opened Basics
  import opened Records
  import opened Trade
  import opened Terms
  import opened SwapState
  import opened Relay
  import opened RelaySafety
  import opened RelayLimits
  import opened Funds

  /** The relay and this participant's journal. */
  datatype World = World(relay: Db, trades: map<string, Swap>)

  datatype Act =
    | AtRelay(op: Op, now: int)
    | Selects(id: string, swap: Swap)
    | Updates(id: string, u: SwapState.Update)
    | Drops(id: string)

  function Acted(c: Crypto, w: World, act: Act): World {
    match act
    case AtRelay(op, now) => w.(relay := After(c, w.relay, op, now))
    case Selects(id, swap) => if id in w.trades then w else w.(trades := w.trades[id := swap])
    case Updates(id, u) =>
      if id in w.trades && Apply(c, w.trades[id], u).Ok? then w.(trades := w.trades[id := Apply(c, w.trades[id], u).value])
      else w
    case Drops(id) => w.(trades := w.trades - {id})
  }

  /** A journaled selection of an own order for one acceptance. */
  predicate SelectedFor(r: Swap, orderID: string, acceptanceID: string) {
    r.role == Maker && r.order.id == orderID && r.acceptance.id == acceptanceID
  }

  ghost predicate IsSelected(trades: map<string, Swap>, orderID: string, acceptanceID: string) {
    exists id :: id in trades && SelectedFor(trades[id], orderID, acceptanceID)
  }

  predicate CancelledAt(db: Db, acceptanceID: string) {
    acceptanceID in db.acceptances && db.acceptances[acceptanceID].cancelledAt != 0
  }

  /** Whether a match of an order may be on its way to the relay: only this participant can sign matches of
      its own orders, and it journals the selection first; a match still on its way when the relay has called
      its acceptance cancelled can do nothing any more. */
  ghost predicate MayMatch(me: string, w: World, o: string, m: SignedMatch) {
    o in w.relay.orders && w.relay.orders[o].signed.order.makerPublicKey == me ==>
      IsSelected(w.trades, o, m.payload.acceptanceID) || CancelledAt(w.relay, m.payload.acceptanceID)
  }

  /** What the reservations turn on: the swap is journaled before its match is sent, and a selection is
      dropped only after the relay called its acceptance cancelled. Sync.Reader shows that the client acts
      in no other way. */
  ghost predicate Careful(me: string, w: World, act: Act) {
    match act
    case AtRelay(Match(o, m), _) => MayMatch(me, w, o, m)
    case Drops(id) => id in w.trades && w.trades[id].role == Maker ==> CancelledAt(w.relay, w.trades[id].acceptance.id)
    case _ => true
  }

  predicate OwnMatched(w: World, me: string, o: string) {
    o in w.relay.orders && w.relay.orders[o].signed.order.makerPublicKey == me && w.relay.orders[o].status == Status.Matched
  }

  /** Every own order the relay has matched stands in the journal. */
  ghost predicate AllSelected(w: World, me: string) {
    forall o :: OwnMatched(w, me, o) ==>
      w.relay.orders[o].acceptance.Some? && IsSelected(w.trades, o, w.relay.orders[o].acceptance.value.id)
  }

  /** How an operation can change an order: by matching it now, or not into a matched one. */
  lemma MatchedOnlyByMatch(c: Crypto, db: Db, op: Op, now: int, o: string)
    requires Consistent(c, db, now)
    requires o in After(c, db, op, now).orders && After(c, db, op, now).orders[o].status == Status.Matched
    ensures
      var after := After(c, db, op, now).orders[o];
      || (o in db.orders && db.orders[o] == after)
      || (op.Match? && op.orderID == o && o in db.orders && db.orders[o].signed == after.signed &&
          after.acceptance.Some? && after.acceptance.value.id == op.matched.payload.acceptanceID &&
          !CancelledAt(db, op.matched.payload.acceptanceID))
  {
    match op {
      case Match(orderID, m) => ByMatch(c, db, orderID, m, now, o);
      case _ => NotByOthers(c, db, op, now, o);
    }
  }

  lemma ByMatch(c: Crypto, db: Db, orderID: string, m: SignedMatch, now: int, o: string)
    requires AcceptancesKeyed(c, db.acceptances)
    requires o in After(c, db, Match(orderID, m), now).orders
    requires After(c, db, Match(orderID, m), now).orders[o].status == Status.Matched
    ensures
      var after := After(c, db, Match(orderID, m), now).orders[o];
      || (o in db.orders && db.orders[o] == after)
      || (orderID == o && o in db.orders && db.orders[o].signed == after.signed &&
          after.acceptance.Some? && after.acceptance.value.id == m.payload.acceptanceID &&
          !CancelledAt(db, m.payload.acceptanceID))
  {
    hide MatchVerified, AppendTo, WasVerified;
  }

  lemma RevokedLeavesOrders(c: Crypto, db: Db, op: Op, now: int)
    requires op.Cancel?
    ensures After(c, db, op, now).orders == db.orders
  {
    hide CancellationVerified, Binds, CancelledFor;
  }

  lemma MailLeavesOrders(c: Crypto, db: Db, op: Op, now: int)
    requires op.Submit? || op.Message?
    ensures After(c, db, op, now).orders == db.orders
  {
    hide AcceptanceVerified, Tombstoned, Pending, AppendTo, MessageVerified, Routed;
  }

  lemma NotByOthers(c: Crypto, db: Db, op: Op, now: int, o: string)
    requires !op.Match?
    requires o in After(c, db, op, now).orders && After(c, db, op, now).orders[o].status == Status.Matched
    ensures o in db.orders && db.orders[o] == After(c, db, op, now).orders[o]
  {
    if op.PublishOrder? || op.CancelOrder? {
      hide OrderVerified, OrderCancellationVerified, OpenOf;
    } else {
      hide After;
      OrdersLeft(c, db, op, now);
    }
  }

  lemma OrdersLeft(c: Crypto, db: Db, op: Op, now: int)
    requires op.Submit? || op.Cancel? || op.Message?
    ensures After(c, db, op, now).orders == db.orders
  {
    hide After;
    if op.Cancel? {
      RevokedLeavesOrders(c, db, op, now);
    } else {
      MailLeavesOrders(c, db, op, now);
    }
  }

  /** A matched order stays as it is. */
  lemma MatchedStays(c: Crypto, db: Db, op: Op, now: int, o: string)
    requires o in db.orders && db.orders[o].status == Status.Matched
    ensures o in After(c, db, op, now).orders && After(c, db, op, now).orders[o] == db.orders[o]
  {
    hide After;
    match op {
      case PublishOrder(_) => PublishLeavesMatched(c, db, op, now, o);
      case CancelOrder(_) => CancelLeavesMatched(c, db, op, now, o);
      case Match(_, _) => MatchLeavesMatched(c, db, op, now, o);
      case _ => OrdersLeft(c, db, op, now);
    }
  }

  lemma PublishLeavesMatched(c: Crypto, db: Db, op: Op, now: int, o: string)
    requires op.PublishOrder? && o in db.orders
    ensures o in After(c, db, op, now).orders && After(c, db, op, now).orders[o] == db.orders[o]
  {
    hide OrderVerified, OpenOf;
  }

  lemma CancelLeavesMatched(c: Crypto, db: Db, op: Op, now: int, o: string)
    requires op.CancelOrder? && o in db.orders && db.orders[o].status == Status.Matched
    ensures o in After(c, db, op, now).orders && After(c, db, op, now).orders[o] == db.orders[o]
  {
    hide OrderCancellationVerified;
  }

  lemma MatchLeavesMatched(c: Crypto, db: Db, op: Op, now: int, o: string)
    requires op.Match? && o in db.orders && db.orders[o].status == Status.Matched
    ensures o in After(c, db, op, now).orders && After(c, db, op, now).orders[o] == db.orders[o]
  {
    hide MatchVerified, AppendTo;
  }

  lemma UpdateKeepsSelection(c: Crypto, r: Swap, u: SwapState.Update, o: string, a: string)
    requires SelectedFor(r, o, a) && Apply(c, r, u).Ok?
    ensures SelectedFor(Apply(c, r, u).value, o, a)
  {
    hide Apply;
    ApplyExtends(c, r, u);
  }

  /** A selection the relay has matched is not one that may be dropped. */
  lemma DropsAnother(me: string, w: World, dropped: string, o: string, id: string)
    requires MatchedStanding(w.relay.orders, w.relay.acceptances) && Careful(me, w, Drops(dropped))
    requires OwnMatched(w, me, o)
    requires w.relay.orders[o].acceptance.Some?
    requires id in w.trades && SelectedFor(w.trades[id], o, w.relay.orders[o].acceptance.value.id)
    ensures dropped != id
  {
    assert Stands(o, w.relay.orders[o], w.relay.acceptances);
  }

  /** No act takes away the journaled selection of a matched order. */
  lemma SelectionStays(c: Crypto, me: string, w: World, act: Act, now: int, o: string)
    requires Consistent(c, w.relay, now) && Careful(me, w, act) && OwnMatched(w, me, o)
    requires w.relay.orders[o].acceptance.Some? && IsSelected(w.trades, o, w.relay.orders[o].acceptance.value.id)
    ensures IsSelected(Acted(c, w, act).trades, o, w.relay.orders[o].acceptance.value.id)
  {
    hide Apply, After, WasVerified, Binds, CancellationVerified;
    var a := w.relay.orders[o].acceptance.value.id;
    var id :| id in w.trades && SelectedFor(w.trades[id], o, a);
    if act.Updates? && act.id == id && Apply(c, w.trades[id], act.u).Ok? {
      UpdateKeepsSelection(c, w.trades[id], act.u, o, a);
    }
    if act.Drops? {
      DropsAnother(me, w, act.id, o, id);
    }
    assert id in Acted(c, w, act).trades && SelectedFor(Acted(c, w, act).trades[id], o, a);
  }

  lemma ActKeepsSelected(c: Crypto, me: string, w: World, act: Act, now: int)
    requires Consistent(c, w.relay, now) && AllSelected(w, me) && Careful(me, w, act)
    requires act.AtRelay? ==> act.now == now
    ensures AllSelected(Acted(c, w, act), me)
  {
    hide Consistent, After, Apply, IsSelected;
    var after := Acted(c, w, act);
    forall o | OwnMatched(after, me, o)
      ensures after.relay.orders[o].acceptance.Some? && IsSelected(after.trades, o, after.relay.orders[o].acceptance.value.id)
    {
      if act.AtRelay? {
        MatchedOnlyByMatch(c, w.relay, act.op, now, o);
      } else {
        SelectionStays(c, me, w, act, now, o);
      }
    }
  }

  // ----- runs

  function Run(c: Crypto, w: World, acts: seq<Act>): World {
    if |acts| == 0 then w else Acted(c, Run(c, w, acts[..|acts| - 1]), acts[|acts| - 1])
  }

  /** The time an act happens at, the relay's clock standing still in between. */
  function TimeOf(act: Act, before: int): int {
    if act.AtRelay? then act.now else before
  }

  function Time(start: int, acts: seq<Act>): int {
    if |acts| == 0 then start else TimeOf(acts[|acts| - 1], Time(start, acts[..|acts| - 1]))
  }

  /** The relay's clock never moves back and every act is careful. */
  ghost predicate Orderly(c: Crypto, me: string, w: World, start: int, acts: seq<Act>) {
    forall i :: 0 <= i < |acts| ==>
      && Careful(me, Run(c, w, acts[..i]), acts[i])
      && Time(start, acts[..i]) <= TimeOf(acts[i], Time(start, acts[..i]))
  }

  lemma {:induction false} AlwaysSelected(c: Crypto, me: string, w: World, start: int, acts: seq<Act>)
    requires start > 0 && Consistent(c, w.relay, start) && AllSelected(w, me) && Orderly(c, me, w, start, acts)
    ensures Time(start, acts) >= start
    ensures Consistent(c, Run(c, w, acts).relay, Time(start, acts)) && AllSelected(Run(c, w, acts), me)
  {
    if |acts| > 0 {
      hide Consistent, AllSelected, Careful, After, Apply;
      var front, act := acts[..|acts| - 1], acts[|acts| - 1];
      FrontOrderly(c, me, w, start, acts);
      AlwaysSelected(c, me, w, start, front);
      var before, now := Run(c, w, front), Time(start, acts);
      ConsistentLater(c, before.relay, Time(start, front), now);
      ActKeepsSelected(c, me, before, act, now);
      if act.AtRelay? {
        StepConsistent(c, before.relay, act.op, now);
      }
    }
  }

  lemma FrontOrderly(c: Crypto, me: string, w: World, start: int, acts: seq<Act>)
    requires |acts| > 0 && Orderly(c, me, w, start, acts)
    ensures Orderly(c, me, w, start, acts[..|acts| - 1])
    ensures Careful(me, Run(c, w, acts[..|acts| - 1]), acts[|acts| - 1])
    ensures Time(start, acts[..|acts| - 1]) <= Time(start, acts)
  {
    hide Careful;
    var front := acts[..|acts| - 1];
    forall i | 0 <= i < |front|
      ensures Careful(me, Run(c, w, front[..i]), front[i]) && Time(start, front[..i]) <= TimeOf(front[i], Time(start, front[..i]))
    {
      assert front[..i] == acts[..i];
    }
  }

  /** One more act. */
  lemma ActsExtend(c: Crypto, me: string, w: World, start: int, acts: seq<Act>, act: Act)
    requires Orderly(c, me, w, start, acts) && Careful(me, Run(c, w, acts), act)
    requires Time(start, acts) <= TimeOf(act, Time(start, acts))
    ensures Orderly(c, me, w, start, acts + [act]) && Run(c, w, acts + [act]) == Acted(c, Run(c, w, acts), act)
    ensures Time(start, acts + [act]) == TimeOf(act, Time(start, acts))
  {
    hide Careful, Acted;
    var longer := acts + [act];
    assert longer[..|acts|] == acts;
    forall i | 0 <= i < |longer|
      ensures Careful(me, Run(c, w, longer[..i]), longer[i])
      ensures Time(start, longer[..i]) <= TimeOf(longer[i], Time(start, longer[..i]))
    {
      if i < |acts| {
        assert longer[..i] == acts[..i];
      }
    }
  }

  lemma OrderLasts(c: Crypto, me: string, w: World, act: Act, o: string)
    requires OwnMatched(w, me, o)
    ensures OwnMatched(Acted(c, w, act), me, o) && Acted(c, w, act).relay.orders[o] == w.relay.orders[o]
  {
    hide After, Apply;
    if act.AtRelay? {
      MatchedStays(c, w.relay, act.op, act.now, o);
    }
  }

  lemma {:induction false} SelectionLasts(c: Crypto, me: string, w: World, start: int, acts: seq<Act>, o: string)
    requires start > 0 && Consistent(c, w.relay, start) && AllSelected(w, me) && Orderly(c, me, w, start, acts)
    requires OwnMatched(w, me, o)
    ensures OwnMatched(Run(c, w, acts), me, o) && Run(c, w, acts).relay.orders[o] == w.relay.orders[o]
  {
    if |acts| > 0 {
      hide Acted, Consistent, AllSelected, Careful, After, Apply;
      var front, act := acts[..|acts| - 1], acts[|acts| - 1];
      FrontOrderly(c, me, w, start, acts);
      SelectionLasts(c, me, w, start, front, o);
      OrderLasts(c, me, Run(c, w, front), act, o);
    }
  }

  // ----- the snapshot

  /** What OrdersByMaker lists: the own orders that are open at that moment. */
  predicate Listing(db: Db, me: string, now: int, listed: seq<SignedOrder>) {
    && (forall o :: o in OpenOf(db.orders, me, now) ==> db.orders[o].signed in listed)
    && (forall i :: 0 <= i < |listed| ==> IsOpenOrder(db, me, now, listed[i]))
  }

  predicate IsOpenOrder(db: Db, me: string, now: int, s: SignedOrder) {
    exists o :: o in OpenOf(db.orders, me, now) && db.orders[o].signed == s
  }

  /** The journal's records. */
  predicate ReadsAll(trades: map<string, Swap>, swaps: seq<Swap>) {
    forall id :: id in trades ==> trades[id] in swaps
  }

  lemma {:induction false} ListedIsSource(listed: seq<SignedOrder>, me: string, s: SignedOrder)
    requires s in listed && s.order.makerPublicKey == me
    ensures (MakerOrder(s.id), s.order.give) in FromOrders(listed, me)
  {
    if s != listed[|listed| - 1] {
      ListedIsSource(listed[..|listed| - 1], me, s);
    }
  }

  lemma {:induction false} SwapIsSource(swaps: seq<Swap>, r: Swap)
    requires r in swaps && Reserves(r)
    ensures (SwapKey(r), SwapAmount(r)) in FromSwaps(swaps)
  {
    if r != swaps[|swaps| - 1] {
      SwapIsSource(swaps[..|swaps| - 1], r);
    }
  }

  /** An own order that is open when the relay is read has its entry, whatever happens to it before the
      journal is read. */
  lemma OpenIsCounted(c: Crypto, db: Db, me: string, now: int, listed: seq<SignedOrder>, pending: seq<Negotiation>,
                      swaps: seq<Swap>, entries: Entries, o: string)
    requires Consistent(c, db, now) && Listing(db, me, now, listed) && o in OpenOf(db.orders, me, now)
    requires Holds(entries, Sources(listed, pending, swaps, me, now))
    ensures MakerOrder(o) in entries && entries[MakerOrder(o)] == db.orders[o].signed.order.give
  {
    hide FromOrders, FromPending, FromSwaps, AcceptancesKeyed, CancellationsKeyed, CancelledExactly, MatchedStanding;
    var s := db.orders[o].signed;
    ListedIsSource(listed, me, s);
    var sources := Sources(listed, pending, swaps, me, now);
    var i :| 0 <= i < |FromOrders(listed, me)| && FromOrders(listed, me)[i] == (MakerOrder(s.id), s.order.give);
    assert sources[i] == (MakerOrder(s.id), s.order.give);
  }

  /** An own order the relay had already matched when it was read has its entry as long as its swap, read
      later, still reserves; open or matched it is one entry, so it is never counted twice. */
  lemma MatchedIsCounted(c: Crypto, me: string, w: World, start: int, acts: seq<Act>, o: string,
                         listed: seq<SignedOrder>, pending: seq<Negotiation>, swaps: seq<Swap>, entries: Entries)
    returns (id: string)
    requires start > 0 && Consistent(c, w.relay, start) && AllSelected(w, me) && Orderly(c, me, w, start, acts)
    requires OwnMatched(w, me, o)
    requires ReadsAll(Run(c, w, acts).trades, swaps)
    requires Holds(entries, Sources(listed, pending, swaps, me, start))
    ensures
      var trades := Run(c, w, acts).trades;
      && w.relay.orders[o].acceptance.Some?
      && id in trades && SelectedFor(trades[id], o, w.relay.orders[o].acceptance.value.id)
      && (Reserves(trades[id]) ==> MakerOrder(o) in entries && entries[MakerOrder(o)] == trades[id].order.order.give)
  {
    hide FromOrders, FromPending, FromSwaps, Consistent, Careful, Reserves, Run;
    AlwaysSelected(c, me, w, start, acts);
    SelectionLasts(c, me, w, start, acts, o);
    var after := Run(c, w, acts);
    id :| id in after.trades && SelectedFor(after.trades[id], o, after.relay.orders[o].acceptance.value.id);
    if Reserves(after.trades[id]) {
      SwapCounted(listed, pending, swaps, me, start, entries, after.trades[id]);
    }
  }

  lemma SwapCounted(listed: seq<SignedOrder>, pending: seq<Negotiation>, swaps: seq<Swap>, me: string, now: int,
                    entries: Entries, r: Swap)
    requires r in swaps && Reserves(r) && Holds(entries, Sources(listed, pending, swaps, me, now))
    ensures SwapKey(r) in entries && entries[SwapKey(r)] == SwapAmount(r)
  {
    hide FromOrders, FromPending, FromSwaps, Reserves;
    SwapIsSource(swaps, r);
    var sources := Sources(listed, pending, swaps, me, now);
    var before := |FromOrders(listed, me)| + |FromPending(pending, now)|;
    var i :| 0 <= i < |FromSwaps(swaps)| && FromSwaps(swaps)[i] == (SwapKey(r), SwapAmount(r));
    assert sources[before + i] == (SwapKey(r), SwapAmount(r));
  }

  /** An own order that is listed as open and already selected in the journal is one reservation: both share
      the key, carry the same amount, and it is in the total once. */
  lemma CountedOnce(listed: seq<SignedOrder>, pending: seq<Negotiation>, swaps: seq<Swap>, me: string, now: int,
                    entries: Entries, s: SignedOrder, r: Swap, asset: string)
    requires Holds(entries, Sources(listed, pending, swaps, me, now))
    requires s in listed && s.order.makerPublicKey == me
    requires r in swaps && Reserves(r) && r.role.Maker? && r.order.id == s.id
    ensures SwapKey(r) == MakerOrder(s.id) && MakerOrder(s.id) in entries
    ensures SwapAmount(r) == entries[MakerOrder(s.id)] == s.order.give
    ensures Total(entries, asset) == AtomicOf(s.order.give, asset) + Total(entries - {MakerOrder(s.id)}, asset)
  {
    hide FromOrders, FromPending, FromSwaps, Reserves, Total;
    ListedIsSource(listed, me, s);
    var sources := Sources(listed, pending, swaps, me, now);
    var i :| 0 <= i < |FromOrders(listed, me)| && FromOrders(listed, me)[i] == (MakerOrder(s.id), s.order.give);
    assert sources[i] == (MakerOrder(s.id), s.order.give);
    SwapCounted(listed, pending, swaps, me, now, entries, r);
    TotalAnyFirst(entries, asset, MakerOrder(s.id));
  }

  lemma {:induction false} PendingIsSource(pending: seq<Negotiation>, now: int, n: Negotiation)
    requires n in pending && n.acceptance.acceptance.expiresAt > now
    ensures (TakerAcceptance(n.acceptance.id), n.order.order.receive) in FromPending(pending, now)
  {
    if n != pending[|pending| - 1] {
      PendingIsSource(pending[..|pending| - 1], now, n);
    }
  }

  /** The same for a taker: an acceptance still pending and the swap it has led to are one reservation of what
      the order asks for. */
  lemma TakerCountedOnce(listed: seq<SignedOrder>, pending: seq<Negotiation>, swaps: seq<Swap>, me: string, now: int,
                         entries: Entries, n: Negotiation, r: Swap, asset: string)
    requires Holds(entries, Sources(listed, pending, swaps, me, now))
    requires n in pending && n.acceptance.acceptance.expiresAt > now
    requires r in swaps && Reserves(r) && r.role.Taker? && r.acceptance.id == n.acceptance.id
    ensures SwapKey(r) == TakerAcceptance(n.acceptance.id) && TakerAcceptance(n.acceptance.id) in entries
    ensures r.order.order.receive == entries[TakerAcceptance(n.acceptance.id)] == n.order.order.receive
    ensures Total(entries, asset) ==
            AtomicOf(n.order.order.receive, asset) + Total(entries - {TakerAcceptance(n.acceptance.id)}, asset)
  {
    hide FromOrders, FromPending, FromSwaps, Reserves, Total;
    PendingIsSource(pending, now, n);
    var sources := Sources(listed, pending, swaps, me, now);
    var i :| 0 <= i < |FromPending(pending, now)| && FromPending(pending, now)[i] == (TakerAcceptance(n.acceptance.id), n.order.order.receive);
    assert sources[|FromOrders(listed, me)| + i] == (TakerAcceptance(n.acceptance.id), n.order.order.receive);
    SwapCounted(listed, pending, swaps, me, now, entries, r);
    TotalAnyFirst(entries, asset, TakerAcceptance(n.acceptance.id));
  }

  // ----- closed orders

  lemma {:induction false} OrderKeys(listed: seq<SignedOrder>, me: string, o: string)
    requires forall s :: s in listed && s.order.makerPublicKey == me ==> s.id != o
    ensures forall i :: 0 <= i < |FromOrders(listed, me)| ==> FromOrders(listed, me)[i].0 != MakerOrder(o)
  {
    if |listed| > 0 {
      OrderKeys(listed[..|listed| - 1], me, o);
    }
  }

  lemma {:induction false} PendingKeys(pending: seq<Negotiation>, now: int, o: string)
    ensures forall i :: 0 <= i < |FromPending(pending, now)| ==> FromPending(pending, now)[i].0 != MakerOrder(o)
  {
    if |pending| > 0 {
      PendingKeys(pending[..|pending| - 1], now, o);
    }
  }

  /** A swap that holds back the amount of a maker's order. */
  predicate HoldsOrder(r: Swap, o: string) {
    Reserves(r) && r.role.Maker? && r.order.id == o
  }

  lemma {:induction false} SwapKeys(swaps: seq<Swap>, o: string)
    requires forall r :: r in swaps ==> !HoldsOrder(r, o)
    ensures forall i :: 0 <= i < |FromSwaps(swaps)| ==> FromSwaps(swaps)[i].0 != MakerOrder(o)
  {
    hide Reserves;
    if |swaps| > 0 {
      var last := swaps[|swaps| - 1];
      assert !HoldsOrder(last, o);
      SwapKeys(swaps[..|swaps| - 1], o);
    }
  }

  /** An own order the relay does not list reserves its amount if and only if some maker's swap of it still
      does. */
  lemma ClosedReservesExactly(listed: seq<SignedOrder>, pending: seq<Negotiation>, swaps: seq<Swap>, me: string, now: int,
                              entries: Entries, o: string)
    requires Holds(entries, Sources(listed, pending, swaps, me, now))
    requires forall s :: s in listed && s.order.makerPublicKey == me ==> s.id != o
    ensures MakerOrder(o) in entries <==> exists r :: r in swaps && HoldsOrder(r, o)
  {
    hide FromOrders, FromPending, FromSwaps, Reserves;
    if r :| r in swaps && HoldsOrder(r, o) {
      SwapCounted(listed, pending, swaps, me, now, entries, r);
    } else {
      OrderKeys(listed, me, o);
      PendingKeys(pending, now, o);
      SwapKeys(swaps, o);
    }
  }

  /** At the relay and in the journal: a closed own order is reserved exactly while a swap of it holds on. */
  lemma ClosedOwnOrder(c: Crypto, w: World, me: string, now: int, listed: seq<SignedOrder>, pending: seq<Negotiation>,
                       swaps: seq<Swap>, entries: Entries, o: string)
    requires Consistent(c, w.relay, now) && Listing(w.relay, me, now, listed) && o !in OpenOf(w.relay.orders, me, now)
    requires forall r :: r in swaps <==> r in w.trades.Values
    requires Holds(entries, Sources(listed, pending, swaps, me, now))
    ensures MakerOrder(o) in entries <==> exists id :: id in w.trades && HoldsOrder(w.trades[id], o)
  {
    hide FromOrders, FromPending, FromSwaps, Reserves, Holds, AcceptancesKeyed, CancellationsKeyed, CancelledExactly,
      MatchedStanding;
    forall s | s in listed && s.order.makerPublicKey == me
      ensures s.id != o
    {
      assert IsOpenOrder(w.relay, me, now, s);
    }
    ClosedReservesExactly(listed, pending, swaps, me, now, entries, o);
  }

  // ----- a run that ends in such a reservation

  /** Publish, receive an acceptance, journal its selection, and cancel before the match arrives. */
  function ClosingActs(s: SignedOrder, a: SignedAcceptance, m: SignedMatch, x: SignedOrderCancellation, now: int): seq<Act> {
    [AtRelay(PublishOrder(s), now), AtRelay(Submit(s.id, a), now),
     Selects(a.acceptance.tradeID, NewSwap(Maker, s, a, m)), AtRelay(CancelOrder(x), now)]
  }

  predicate ClosingRecords(c: Crypto, s: SignedOrder, a: SignedAcceptance, m: SignedMatch, x: SignedOrderCancellation, now: int) {
    && OrderVerified(c, s, now) && AcceptanceVerified(c, a, s, now) && MatchVerified(c, m, s, a, now)
    && OrderCancellationVerified(c, x, now) && x.cancellation.orderID == s.id
    && x.cancellation.makerPublicKey == s.order.makerPublicKey
  }

  lemma FirstPublished(c: Crypto, s: SignedOrder, now: int)
    requires OrderVerified(c, s, now) && s.order.expiresAt > now
    ensures
      After(c, EMPTY, PublishOrder(s), now) ==
      EMPTY.(orders := map[s.id := Relay.OrderRecord(s, Status.Open, now, 0, None, 0, None, None)])
  {
    hide OrderVerified;
    assert OpenOf(map[], s.order.makerPublicKey, now) == {};
  }

  lemma FirstSubmitted(c: Crypto, db: Db, s: SignedOrder, a: SignedAcceptance, now: int)
    requires s.id in db.orders && db.orders[s.id].signed == s && EffectiveStatus(db.orders[s.id], now) == Status.Open
    requires db.acceptances == map[] && db.cancellations == map[] && AcceptanceVerified(c, a, s, now)
    ensures After(c, db, Submit(s.id, a), now).orders == db.orders
    ensures a.id in After(c, db, Submit(s.id, a), now).acceptances
    ensures !CancelledAt(After(c, db, Submit(s.id, a), now), a.id)
  {
    hide AcceptanceVerified, AppendTo;
    assert Pending(map[], s.id, now) == {};
  }

  lemma OrderClosed(c: Crypto, db: Db, s: SignedOrder, x: SignedOrderCancellation, now: int)
    requires s.id in db.orders && db.orders[s.id].signed == s && EffectiveStatus(db.orders[s.id], now) == Status.Open
    requires OrderCancellationVerified(c, x, now) && x.cancellation.orderID == s.id
    requires x.cancellation.makerPublicKey == s.order.makerPublicKey
    ensures
      var after := After(c, db, CancelOrder(x), now);
      s.id in after.orders && after.orders[s.id].status == Status.Cancelled && after.acceptances == db.acceptances
  {
    hide OrderCancellationVerified;
  }

  lemma FourActs(c: Crypto, w: World, p: Act, q: Act, r: Act, t: Act)
    ensures
      var acts := [p, q, r, t];
      && Run(c, w, acts[..0]) == w && Run(c, w, acts[..1]) == Acted(c, w, p)
      && Run(c, w, acts[..2]) == Acted(c, Acted(c, w, p), q)
      && Run(c, w, acts[..3]) == Acted(c, Acted(c, Acted(c, w, p), q), r)
      && Run(c, w, acts) == Acted(c, Acted(c, Acted(c, Acted(c, w, p), q), r), t)
  {
    hide Acted;
    var acts := [p, q, r, t];
    assert acts[..1][..0] == acts[..0] && acts[..2][..1] == acts[..1];
    assert acts[..3][..2] == acts[..2] && acts[..4] == acts;
    assert Run(c, w, acts[..1]) == Acted(c, w, p);
    assert Run(c, w, acts[..2]) == Acted(c, Acted(c, w, p), q);
    assert Run(c, w, acts[..3]) == Acted(c, Acted(c, Acted(c, w, p), q), r);
  }

  /** Where "a closed own order reserves nothing" fails: from an empty relay and journal these acts, all of them
      careful, close the order with its amount reserved, whatever else is read with it. */
  lemma ClosedStillReserved(c: Crypto, s: SignedOrder, a: SignedAcceptance, m: SignedMatch, x: SignedOrderCancellation, now: int,
                            listed: seq<SignedOrder>, pending: seq<Negotiation>, swaps: seq<Swap>, entries: Entries)
    requires now > 0 && ClosingRecords(c, s, a, m, x, now)
    requires ReadsAll(Run(c, World(EMPTY, map[]), ClosingActs(s, a, m, x, now)).trades, swaps)
    requires Holds(entries, Sources(listed, pending, swaps, s.order.makerPublicKey, now))
    ensures
      var me, acts := s.order.makerPublicKey, ClosingActs(s, a, m, x, now);
      var w := Run(c, World(EMPTY, map[]), acts);
      && Orderly(c, me, World(EMPTY, map[]), now, acts)
      && s.id in w.relay.orders && w.relay.orders[s.id].status == Status.Cancelled
      && a.id in w.relay.acceptances && !CancelledAt(w.relay, a.id)
      && w.trades == map[a.acceptance.tradeID := NewSwap(Maker, s, a, m)]
      && MakerOrder(s.id) in entries && entries[MakerOrder(s.id)] == s.order.give
  {
    hide OrderVerified, AcceptanceVerified, MatchVerified, OrderCancellationVerified, FromOrders, FromPending, FromSwaps,
      After, Run, Holds, Orderly;
    ClosingRun(c, s, a, m, x, now);
    ClosingOrderly(c, s, a, m, x, now);
    var r := NewSwap(Maker, s, a, m);
    assert Run(c, World(EMPTY, map[]), ClosingActs(s, a, m, x, now)).trades[a.acceptance.tradeID] == r;
    SwapCounted(listed, pending, swaps, s.order.makerPublicKey, now, entries, r);
  }

  lemma VerifiedOpen(c: Crypto, s: SignedOrder, now: int)
    requires OrderVerified(c, s, now)
    ensures s.order.expiresAt > now
  {
    hide SignatureValid, PairValid, KeysValid, MessageKeyValid;
  }

  lemma ClosingRun(c: Crypto, s: SignedOrder, a: SignedAcceptance, m: SignedMatch, x: SignedOrderCancellation, now: int)
    requires ClosingRecords(c, s, a, m, x, now)
    ensures
      var w := Run(c, World(EMPTY, map[]), ClosingActs(s, a, m, x, now));
      && s.id in w.relay.orders && w.relay.orders[s.id].status == Status.Cancelled
      && a.id in w.relay.acceptances && !CancelledAt(w.relay, a.id)
      && w.trades == map[a.acceptance.tradeID := NewSwap(Maker, s, a, m)]
  {
    hide OrderVerified, AcceptanceVerified, MatchVerified, OrderCancellationVerified, After, Run;
    var acts := ClosingActs(s, a, m, x, now);
    FourActs(c, World(EMPTY, map[]), acts[0], acts[1], acts[2], acts[3]);
    VerifiedOpen(c, s, now);
    FirstPublished(c, s, now);
    var db := After(c, EMPTY, PublishOrder(s), now);
    FirstSubmitted(c, db, s, a, now);
    OrderClosed(c, After(c, db, Submit(s.id, a), now), s, x, now);
  }

  lemma ClosingOrderly(c: Crypto, s: SignedOrder, a: SignedAcceptance, m: SignedMatch, x: SignedOrderCancellation, now: int)
    ensures Orderly(c, s.order.makerPublicKey, World(EMPTY, map[]), now, ClosingActs(s, a, m, x, now))
  {
    hide Run;
    var acts := ClosingActs(s, a, m, x, now);
    forall i | 0 <= i < |acts|
      ensures Careful(s.order.makerPublicKey, Run(c, World(EMPTY, map[]), acts[..i]), acts[i])
      ensures Time(now, acts[..i]) <= TimeOf(acts[i], Time(now, acts[..i]))
    {
      TimeStands(now, acts[..i], now);
    }
  }

  lemma {:induction false} TimeStands(start: int, acts: seq<Act>, now: int)
    requires start == now && forall i :: 0 <= i < |acts| && acts[i].AtRelay? ==> acts[i].now == now
    ensures Time(start, acts) == now
  {
    if |acts| > 0 {
      TimeStands(start, acts[..|acts| - 1], now);
    }
  }
}
