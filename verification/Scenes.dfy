/** The relay, the clocks and the journal of one participant as they move on together: what an item of the
    mailbox, once handled, leaves for good. */
module Scenes {
  import opened Basics
  import opened Records
  import opened Trade
  import opened Terms
  import opened SwapState
  import opened Relay
  import RS = RelaySafety
  import F = Funds
  import opened RelayMessages
  import opened Snapshot

  // ----- what lasts while the relay and the journal move on

  /** The relay and its clock; the latest time this client's clock has shown and the acceptances its wallets
      have refused; the journal. */
  datatype Scene = Scene(
    relay: Db, clock: int, reading: int, refused: set<string>, trades: map<string, Swap>, messages: map<string, SignedMessage>)

  predicate OrdersLater(a: Db, then_: int, b: Db, now: int) {
    forall o :: o in a.orders ==>
      o in b.orders && (EffectiveStatus(a.orders[o], then_) != Status.Open ==> ClosedFor(a.orders[o], b.orders[o], now))
  }

  /** A closed order never opens again, and one that is not matched then is not matched later. */
  predicate ClosedFor(before: Relay.OrderRecord, after: Relay.OrderRecord, now: int) {
    EffectiveStatus(after, now) != Status.Open && (after.status == Status.Matched ==> after == before)
  }

  ghost predicate CancelledLater(a: Db, b: Db) {
    forall id :: CancelledAt(a, id) ==> CancelledAt(b, id)
  }

  /** A swap that is not provisional stays, with its selection. */
  predicate TradesLater(a: map<string, Swap>, b: map<string, Swap>) {
    forall id :: id in a && !a[id].relayMatchPending ==> id in b && SettledAs(a[id], b[id])
  }

  predicate SettledAs(a: Swap, b: Swap) {
    b.role == a.role && b.order.id == a.order.id && b.acceptance.id == a.acceptance.id && !b.relayMatchPending
  }

  /** Stored acceptances stay as they were signed. */
  predicate AcceptancesLater(a: Db, b: Db) {
    forall id :: id in a.acceptances ==> id in b.acceptances && b.acceptances[id].signed == a.acceptances[id].signed
  }

  function MailOf(db: Db, me: string): seq<MailboxItem> {
    BoxOf(db.mailboxes, me).items
  }

  ghost predicate Later(me: string, a: Scene, b: Scene) {
    && a.clock <= b.clock && a.reading <= b.reading && a.refused <= b.refused && a.messages.Keys <= b.messages.Keys
    && OrdersLater(a.relay, a.clock, b.relay, b.clock) && CancelledLater(a.relay, b.relay)
    && AcceptancesLater(a.relay, b.relay)
    && TradesLater(a.trades, b.trades) && MailOf(a.relay, me) <= MailOf(b.relay, me)
  }

  lemma LaterReflexive(me: string, a: Scene)
    ensures Later(me, a, a)
  {
  }

  lemma LaterTransitive(me: string, a: Scene, b: Scene, c: Scene)
    requires Later(me, a, b) && Later(me, b, c)
    ensures Later(me, a, c)
  {
    hide EffectiveStatus, CancelledAt;
  }

  lemma OpLater(c: Crypto, db: Db, op: RS.Op, then_: int, now: int)
    requires then_ <= now && now > 0
    ensures OrdersLater(db, then_, RS.After(c, db, op, now), now) && CancelledLater(db, RS.After(c, db, op, now))
    ensures AcceptancesLater(db, RS.After(c, db, op, now))
  {
    hide OrdersLater, CancelledLater, AcceptancesLater, RS.After;
    OpKeepsOrders(c, db, op, then_, now);
    if op.Cancel? {
      RevokedLater(c, db, op, now);
    } else {
      OpKeepsCancelled(c, db, op, now);
      OpKeepsAcceptances(c, db, op, now);
    }
  }

  lemma OpKeepsAcceptances(c: Crypto, db: Db, op: RS.Op, now: int)
    requires !op.Cancel?
    ensures AcceptancesLater(db, RS.After(c, db, op, now))
  {
    hide Submitted;
    if op.Submit? {
      SubmittedAdds(c, db, op.orderID, op.acceptance, now);
    } else {
      hide RS.After;
      RS.UntouchedByOthers(c, db, op, now);
    }
  }

  lemma SubmittedAdds(c: Crypto, db: Db, o: string, a: SignedAcceptance, now: int)
    ensures Submitted(c, db, o, a, now).Ok? ==> AcceptancesLater(db, Submitted(c, db, o, a, now).value.0)
  {
    hide AcceptanceVerified, Tombstoned, Pending, AppendTo;
  }

  /** A cancellation marks at most the acceptance it names. */
  lemma RevokedMarks(c: Crypto, db: Db, o: string, id: string, x: SignedAcceptanceCancellation, now: int)
    requires Revoked(c, db, o, id, x, now).Ok?
    ensures
      var before, after := db.acceptances, Revoked(c, db, o, id, x, now).value.0.acceptances;
      after == before || (id in before && after == before[id := before[id].(cancelledAt := now, cancellation := Some(x))])
  {
    hide CancellationVerified, Binds, CancelledFor;
  }

  lemma OpKeepsOrders(c: Crypto, db: Db, op: RS.Op, then_: int, now: int)
    requires then_ <= now
    ensures OrdersLater(db, then_, RS.After(c, db, op, now), now)
  {
    hide OrdersLater, RS.After;
    match op {
      case PublishOrder(_) => PublishKeepsOrders(c, db, op, then_, now);
      case CancelOrder(_) => CancelKeepsOrders(c, db, op, then_, now);
      case Match(_, _) => MatchKeepsOrders(c, db, op, then_, now);
      case _ => OrdersLeft(c, db, op, now);
    }
    if RS.After(c, db, op, now).orders == db.orders {
      SameOrdersLater(db, then_, RS.After(c, db, op, now), now);
    }
  }

  lemma PublishKeepsOrders(c: Crypto, db: Db, op: RS.Op, then_: int, now: int)
    requires then_ <= now && op.PublishOrder?
    ensures OrdersLater(db, then_, RS.After(c, db, op, now), now)
  {
    hide OrderVerified, OpenOf;
  }

  lemma CancelKeepsOrders(c: Crypto, db: Db, op: RS.Op, then_: int, now: int)
    requires then_ <= now && op.CancelOrder?
    ensures OrdersLater(db, then_, RS.After(c, db, op, now), now)
  {
    hide OrderCancellationVerified, OrdersLater;
    var id := op.orderCancellation.cancellation.orderID;
    var after := RS.After(c, db, op, now);
    if after.orders == db.orders {
      SameOrdersLater(db, then_, after, now);
    } else {
      OneOrderLater(db, then_, after, now, id);
    }
  }

  lemma MatchKeepsOrders(c: Crypto, db: Db, op: RS.Op, then_: int, now: int)
    requires then_ <= now && op.Match?
    ensures OrdersLater(db, then_, RS.After(c, db, op, now), now)
  {
    hide AppendTo, MatchVerified, OrdersLater;
    var after := RS.After(c, db, op, now);
    if after.orders == db.orders {
      SameOrdersLater(db, then_, after, now);
    } else {
      OneOrderLater(db, then_, after, now, op.orderID);
    }
  }

  /** An open order may change in any way. */
  lemma OneOrderLater(a: Db, then_: int, b: Db, now: int, id: string)
    requires then_ <= now && id in a.orders && EffectiveStatus(a.orders[id], now) == Status.Open
    requires id in b.orders && b.orders == a.orders[id := b.orders[id]]
    ensures OrdersLater(a, then_, b, now)
  {
  }

  lemma SameOrdersLater(a: Db, then_: int, b: Db, now: int)
    requires a.orders == b.orders && then_ <= now
    ensures OrdersLater(a, then_, b, now)
  {
  }

  lemma OpKeepsCancelled(c: Crypto, db: Db, op: RS.Op, now: int)
    requires !op.Cancel?
    ensures CancelledLater(db, RS.After(c, db, op, now))
  {
    hide OrderVerified, OrderCancellationVerified, OpenOf, AcceptanceVerified, Tombstoned, Pending, AppendTo,
      MessageVerified, Routed, MatchVerified;
  }

  lemma RevokedLater(c: Crypto, db: Db, op: RS.Op, now: int)
    requires op.Cancel? && now > 0
    ensures CancelledLater(db, RS.After(c, db, op, now)) && AcceptancesLater(db, RS.After(c, db, op, now))
  {
    hide Revoked;
    if Revoked(c, db, op.orderID, op.acceptanceID, op.cancellation, now).Ok? {
      RevokedMarks(c, db, op.orderID, op.acceptanceID, op.cancellation, now);
    }
  }

  predicate IsStored(db: Db, a: SignedAcceptance) {
    a.id in db.acceptances && db.acceptances[a.id].signed == a
  }

  /** An acceptance is filed only when it is stored first. */
  predicate FiledFirst(before: Db, after: Db, content: Content) {
    content.AcceptanceItem? ==>
      content.acceptance.signed.id !in before.acceptances && IsStored(after, content.acceptance.signed)
  }

  /** An operation appends at most one item to one mailbox. */
  ghost predicate Appends(before: Db, after: Db, now: int) {
    || after.mailboxes == before.mailboxes
    || exists owner, content ::
         after.mailboxes == AppendTo(before.mailboxes, owner, now, content) && FiledFirst(before, after, content)
  }

  /** Each acceptance in a mailbox is a stored one, and none is there twice. */
  predicate AcceptancesFiled(db: Db, items: seq<MailboxItem>) {
    && (forall k :: 0 <= k < |items| && items[k].content.AcceptanceItem? ==> IsStored(db, items[k].content.acceptance.signed))
    && (forall j, k :: 0 <= j < k < |items| && items[j].content.AcceptanceItem? && items[k].content.AcceptanceItem? ==>
          items[j].content.acceptance.signed.id != items[k].content.acceptance.signed.id)
  }

  lemma OpAppends(c: Crypto, db: Db, op: RS.Op, now: int)
    ensures Appends(db, RS.After(c, db, op, now), now)
  {
    match op {
      case Submit(_, _) => SubmitAppends(c, db, op, now);
      case Match(_, _) => MatchAppends(c, db, op, now);
      case Message(_) => MessageAppends(c, db, op, now);
      case _ => OrdersLeaveMail(c, db, op, now);
    }
  }

  lemma SubmitAppends(c: Crypto, db: Db, op: RS.Op, now: int)
    requires op.Submit?
    ensures Appends(db, RS.After(c, db, op, now), now)
  {
    hide AppendTo, AcceptanceVerified, Tombstoned, Pending;
  }

  lemma MatchAppends(c: Crypto, db: Db, op: RS.Op, now: int)
    requires op.Match?
    ensures Appends(db, RS.After(c, db, op, now), now)
  {
    hide AppendTo, MatchVerified;
  }

  lemma MessageAppends(c: Crypto, db: Db, op: RS.Op, now: int)
    requires op.Message?
    ensures Appends(db, RS.After(c, db, op, now), now)
  {
    hide AppendTo, MessageVerified, Routed;
  }

  lemma AcceptancesStayFiled(c: Crypto, db: Db, op: RS.Op, now: int, me: string)
    requires AcceptancesFiled(db, MailOf(db, me)) && now > 0
    ensures AcceptancesFiled(RS.After(c, db, op, now), MailOf(RS.After(c, db, op, now), me))
  {
    hide RS.After, OrdersLater, CancelledLater, EffectiveStatus;
    OpAppends(c, db, op, now);
    OpLater(c, db, op, now, now);
  }

  /** In every reachable state each mailbox names an acceptance once, as it is stored. */
  lemma {:induction false} AcceptancesAlwaysFiled(c: Crypto, ops: seq<(RS.Op, int)>, me: string)
    requires RS.ClockRuns(ops)
    ensures AcceptancesFiled(RS.Run(c, ops), MailOf(RS.Run(c, ops), me))
  {
    if |ops| > 0 {
      hide RS.After, AcceptancesFiled;
      AcceptancesAlwaysFiled(c, ops[..|ops| - 1], me);
      AcceptancesStayFiled(c, RS.Run(c, ops[..|ops| - 1]), ops[|ops| - 1].0, ops[|ops| - 1].1, me);
    } else {
      assert AcceptancesFiled(EMPTY, []);
    }
  }

  /** Mail only arrives, under the next cursor. */
  lemma MailLater(c: Crypto, db: Db, op: RS.Op, now: int, me: string)
    requires CountedBox(BoxOf(db.mailboxes, me))
    ensures CountedBox(BoxOf(RS.After(c, db, op, now).mailboxes, me))
    ensures MailOf(db, me) <= MailOf(RS.After(c, db, op, now), me)
  {
    hide RS.After;
    OpAppends(c, db, op, now);
  }

  // ----- what handling an item leaves for good

  /** A swap this participant takes; only a maker's swap is ever provisional. */
  predicate Selected(trades: map<string, Swap>, id: string) {
    id in trades && trades[id].role.Taker? && !trades[id].relayMatchPending
  }

  predicate OnlyMakersPend(trades: map<string, Swap>) {
    forall id :: id in trades && trades[id].role.Taker? ==> !trades[id].relayMatchPending
  }

  /** A journaled selection the relay has chosen: the engine may drive it. */
  ghost predicate Released(trades: map<string, Swap>, orderID: string, acceptanceID: string) {
    exists id :: id in trades && SelectedFor(trades[id], orderID, acceptanceID) && !trades[id].relayMatchPending
  }

  /** A selection of this acceptance that waits for the relay. */
  predicate Provisional(trades: map<string, Swap>, a: SignedAcceptance) {
    var id := a.acceptance.tradeID;
    id in trades && SelectedFor(trades[id], a.acceptance.orderID, a.id) && trades[id].relayMatchPending
  }

  /** The order is closed by something else, or the acceptance has expired: nothing is asked of the relay. */
  predicate Skipped(db: Db, clock: int, now: int, a: SignedAcceptance) {
    var o := a.acceptance.orderID;
    && o in db.orders && !MatchedTo(db.orders[o], a.id)
    && (EffectiveStatus(db.orders[o], clock) != Status.Open || a.acceptance.expiresAt <= now)
  }

  /** Provisional selections stay as they are, except those of one acceptance. */
  predicate PendingStay(a: map<string, Swap>, b: map<string, Swap>, except: string) {
    forall id :: id in a && a[id].relayMatchPending && a[id].acceptance.id != except ==> id in b && b[id] == a[id]
  }

  /** A write that only adds selections. */
  predicate TradesGrow(a: map<string, Swap>, b: map<string, Swap>) {
    forall id :: id in a ==> id in b && b[id] == a[id]
  }

  predicate Names(item: MailboxItem, acceptanceID: string) {
    item.content.AcceptanceItem? && item.content.acceptance.signed.id == acceptanceID
  }

  /** A provisional selection whose acceptance the cursor has passed. */
  ghost predicate Leftover(s: Scene, me: string, cursor: nat, id: string) {
    && id in s.trades && s.trades[id].relayMatchPending
    && exists k :: 0 <= k < cursor && k < |MailOf(s.relay, me)| && Names(MailOf(s.relay, me)[k], s.trades[id].acceptance.id)
  }

  /** Each of them stays, exactly as it is. */
  ghost predicate LeftoversStay(me: string, a: Scene, from: nat, b: Scene, to: nat) {
    forall id :: Leftover(a, me, from, id) ==> Leftover(b, me, to, id) && b.trades[id] == a.trades[id]
  }

  predicate MatchedTo(r: Relay.OrderRecord, acceptanceID: string) {
    r.status == Status.Matched && r.acceptance.Some? && r.acceptance.value.id == acceptanceID
  }

  /** What has become of an acceptance of an own order: the order is closed, and if this acceptance closed
      it, its swap is released; or the acceptance has expired, was cancelled or was refused. */
  ghost predicate Answered(a: SignedAcceptance, s: Scene) {
    var o := a.acceptance.orderID;
    && o in s.relay.orders
    && (|| (EffectiveStatus(s.relay.orders[o], s.clock) != Status.Open &&
            (MatchedTo(s.relay.orders[o], a.id) ==> Released(s.trades, o, a.id)))
        || a.acceptance.expiresAt <= s.reading
        || CancelledAt(s.relay, a.id)
        || a.id in s.refused)
  }

  ghost predicate Kept(item: MailboxItem, s: Scene) {
    match item.content
    case MessageItem(m) => m.id in s.messages
    case MatchItem(m) => Selected(s.trades, m.payload.tradeID)
    case AcceptanceItem(a) => Answered(a.signed, s)
  }

  lemma ReleasedLater(a: map<string, Swap>, b: map<string, Swap>, o: string, id: string)
    requires TradesLater(a, b) && Released(a, o, id)
    ensures Released(b, o, id)
  {
    var k :| k in a && SelectedFor(a[k], o, id) && !a[k].relayMatchPending;
    assert k in b && SelectedFor(b[k], o, id) && !b[k].relayMatchPending;
  }

  lemma KeptLater(item: MailboxItem, me: string, a: Scene, b: Scene)
    requires Later(me, a, b) && Kept(item, a)
    ensures Kept(item, b)
  {
    hide EffectiveStatus;
    if item.content.AcceptanceItem? {
      var x := item.content.acceptance.signed;
      if Released(a.trades, x.acceptance.orderID, x.id) {
        ReleasedLater(a.trades, b.trades, x.acceptance.orderID, x.id);
      }
    }
  }

  // ----- the selections

  /** Each maker's swap carries a match of its own acceptance. */
  predicate MatchesOwn(trades: map<string, Swap>) {
    forall id :: id in trades && trades[id].role.Maker? ==> trades[id].matched.payload.acceptanceID == trades[id].acceptance.id
  }

  /** A match that may still be on its way. */
  ghost predicate Posted(w: World, post: (string, SignedMatch)) {
    IsSelected(w.trades, post.0, post.1.payload.acceptanceID) || CancelledAt(w.relay, post.1.payload.acceptanceID)
  }

  lemma PostedThroughOp(c: Crypto, w: World, op: RS.Op, now: int, post: (string, SignedMatch))
    requires Posted(w, post) && now > 0
    ensures Posted(w.(relay := RS.After(c, w.relay, op, now)), post)
  {
    hide IsSelected, RS.After;
    OpLater(c, w.relay, op, now, now);
  }

  predicate SelectionsKept(a: map<string, Swap>, b: map<string, Swap>) {
    forall id :: id in a ==> id in b && SameSelected(a[id], b[id])
  }

  predicate SameSelected(a: Swap, b: Swap) {
    b.role == a.role && b.order == a.order && b.acceptance == a.acceptance
  }

  lemma SelectionKept(a: map<string, Swap>, b: map<string, Swap>, o: string, acceptanceID: string)
    requires SelectionsKept(a, b) && IsSelected(a, o, acceptanceID)
    ensures IsSelected(b, o, acceptanceID)
  {
    var id :| id in a && SelectedFor(a[id], o, acceptanceID);
    assert id in b && SelectedFor(b[id], o, acceptanceID);
  }

  lemma PostedMayMatch(me: string, w: World, o: string, m: SignedMatch)
    requires Posted(w, (o, m))
    ensures MayMatch(me, w, o, m)
  {
  }

  lemma PostedThroughWrite(w: World, trades: map<string, Swap>, post: (string, SignedMatch))
    requires Posted(w, post) && SelectionsKept(w.trades, trades)
    ensures Posted(w.(trades := trades), post)
  {
    if IsSelected(w.trades, post.0, post.1.payload.acceptanceID) {
      SelectionKept(w.trades, trades, post.0, post.1.payload.acceptanceID);
    }
  }

  lemma CreatedMatches(c: Crypto, role: Party, order: SignedOrder, a: SignedAcceptance, m: SignedMatch)
    requires MatchVerified(c, m, order, a, m.payload.createdAt)
    ensures
      var r := NewSwap(role, order, a, m);
      r.matched.payload.acceptanceID == r.acceptance.id && m.payload.tradeID == a.acceptance.tradeID
  {
    hide AcceptanceVerified;
  }

  /** A new selection under a new ID. */
  lemma SelectedLater(trades: map<string, Swap>, r: Swap)
    requires r.id !in trades && OnlyMakersPend(trades) && MatchesOwn(trades)
    requires r.relayMatchPending ==> r.role.Maker?
    requires r.matched.payload.acceptanceID == r.acceptance.id
    ensures
      var after := trades[r.id := r];
      && TradesLater(trades, after) && SelectionsKept(trades, after) && TradesGrow(trades, after)
      && OnlyMakersPend(after) && MatchesOwn(after)
  {
  }

  /** Releasing a swap changes nothing but its marker. */
  lemma ReleaseKeeps(trades: map<string, Swap>, id: string)
    requires id in trades && OnlyMakersPend(trades) && MatchesOwn(trades)
    ensures
      var after := trades[id := trades[id].(relayMatchPending := false)];
      SelectionsKept(trades, after) && TradesLater(trades, after) && OnlyMakersPend(after) && MatchesOwn(after)
  {
  }

  lemma DropLater(trades: map<string, Swap>, id: string)
    requires id in trades ==> trades[id].relayMatchPending
    ensures TradesLater(trades, trades - {id})
  {
  }

  lemma SameRelayLater(me: string, a: Scene, b: Scene)
    requires b == a.(trades := b.trades) && TradesLater(a.trades, b.trades)
    ensures Later(me, a, b)
  {
  }

  lemma StoredLater(me: string, a: Scene, b: Scene, x: SignedAcceptance)
    requires Later(me, a, b) && IsStored(a.relay, x)
    ensures IsStored(b.relay, x)
  {
    hide OrdersLater, CancelledLater, TradesLater;
  }

  /** A selection still provisional when its acceptance has been passed by holds the order's amount back
      at any later reading of the funds. */
  lemma ReservedForGood(me: string, x: SignedAcceptance, k: nat, a: Scene, from: nat, b: Scene, to: nat,
                        listed: seq<SignedOrder>, pending: seq<F.Negotiation>, swaps: seq<Swap>, now: int, entries: F.Entries)
    requires k < from && k < |MailOf(a.relay, me)| && Names(MailOf(a.relay, me)[k], x.id)
    requires Provisional(a.trades, x) && HoldsOrder(a.trades[x.acceptance.tradeID], x.acceptance.orderID)
    requires LeftoversStay(me, a, from, b, to) && ReadsAll(b.trades, swaps)
    requires F.Holds(entries, F.Sources(listed, pending, swaps, me, now))
    ensures Provisional(b.trades, x) && F.MakerOrder(x.acceptance.orderID) in entries
  {
    hide F.FromOrders, F.FromPending, F.FromSwaps, F.Holds, F.Reserves;
    var id := x.acceptance.tradeID;
    assert Leftover(a, me, from, id);
    SwapCounted(listed, pending, swaps, me, now, entries, b.trades[id]);
  }

  lemma LeftoversReflexive(me: string, a: Scene, from: nat)
    ensures LeftoversStay(me, a, from, a, from)
  {
  }

  lemma LeftoversTransitive(me: string, a: Scene, from: nat, b: Scene, mid: nat, c: Scene, to: nat)
    requires LeftoversStay(me, a, from, b, mid) && LeftoversStay(me, b, mid, c, to)
    ensures LeftoversStay(me, a, from, c, to)
  {
    hide Leftover;
  }

  lemma LeftoversFurther(me: string, a: Scene, from: nat, b: Scene, to: nat)
    requires from <= to && LeftoversStay(me, a, from, b, from)
    ensures LeftoversStay(me, a, from, b, to)
  {
  }

  /** More mail leaves them alone. */
  lemma MailMovesOn(me: string, a: Scene, from: nat, b: Scene)
    requires b.trades == a.trades && MailOf(a.relay, me) <= MailOf(b.relay, me)
    ensures LeftoversStay(me, a, from, b, from)
  {
    forall id | Leftover(a, me, from, id)
      ensures Leftover(b, me, from, id)
    {
      var k :| 0 <= k < from && k < |MailOf(a.relay, me)| && Names(MailOf(a.relay, me)[k], a.trades[id].acceptance.id);
      assert Names(MailOf(b.relay, me)[k], b.trades[id].acceptance.id);
    }
  }

  lemma SameRelayReading(me: string, a: Scene, b: Scene)
    requires b == a.(reading := b.reading) && a.reading <= b.reading
    ensures Later(me, a, b)
  {
  }

  lemma AcceptsOrder(c: Crypto, a: SignedAcceptance, s: SignedOrder, now: int)
    requires AcceptanceVerified(c, a, s, now)
    ensures a.acceptance.orderID == s.id
  {
  }

  lemma SameRelayMessages(me: string, a: Scene, b: Scene)
    requires b == a.(messages := b.messages) && a.messages.Keys <= b.messages.Keys
    ensures Later(me, a, b)
  {
  }

  lemma SameRelayRefused(me: string, a: Scene, b: Scene)
    requires b == a.(refused := b.refused) && a.refused <= b.refused
    ensures Later(me, a, b)
  {
  }

  /** Dropping the selection of a cancelled acceptance leaves its match harmless. */
  lemma PostedThroughDrop(w: World, id: string, post: (string, SignedMatch))
    requires Posted(w, post) && id in w.trades && CancelledAt(w.relay, w.trades[id].acceptance.id)
    ensures Posted(w.(trades := w.trades - {id}), post)
  {
    if IsSelected(w.trades, post.0, post.1.payload.acceptanceID) {
      var k :| k in w.trades && SelectedFor(w.trades[k], post.0, post.1.payload.acceptanceID);
      if k != id {
        assert k in w.trades - {id} && SelectedFor((w.trades - {id})[k], post.0, post.1.payload.acceptanceID);
      }
    }
  }

  /** The relay refuses a match as cancelled exactly for acceptances it has marked. */
  lemma CancelledAnswer(c: Crypto, db: Db, o: string, m: SignedMatch, now: int)
    requires RS.Consistent(c, db, now) && Relay.Confirmed(c, db, o, m, now) == Err(RelayError.AcceptanceCancelled)
    ensures CancelledAt(db, m.payload.acceptanceID)
  {
    hide MatchVerified, AppendTo, RS.WasVerified, RS.BoundBy;
  }

  lemma ConfirmedCloses(c: Crypto, db: Db, o: string, m: SignedMatch, now: int)
    requires Relay.Confirmed(c, db, o, m, now).Ok?
    ensures
      var after := RS.After(c, db, RS.Match(o, m), now);
      o in after.orders && after.orders[o].status == Status.Matched
  {
    hide MatchVerified, AppendTo;
  }

  /** How the relay answered a match, if at all. */
  datatype Reply = Lost | Answer(result: Result<(Relay.OrderRecord, bool), RelayError>)

  datatype Attempt = Done | Refused | Withdrawn | Stopped(error: Error)
}
