/** What the relay stores was signed by the party it names, and every party finds in its mailbox what concerns
    it: in every reachable state of internal/relay/store.go and internal/relay/mailbox.go. */
module RelayRecords {
  import opened Basics
  import opened Records
  import opened Trade
  import opened Relay
  import opened RelaySafety
  import opened RelayMessages
  import Encoding
  import Scenes
  import Snapshot

  // ----- what is stored was signed

  /** An order is signed by its maker; so is its cancellation, without which it is never cancelled, and its
      match, which names the acceptance the order stands on. */
  predicate OrderSigned(c: Crypto, id: string, r: Relay.OrderRecord) {
    var maker := r.signed.order.makerPublicKey;
    && r.signed.id == id
    && c.signed(maker, Encoding.SigningBytes(Encoding.OrderRecord(r.signed.order)), r.signed.signature)
    && (r.status == Cancelled ==> r.cancellation.Some? && r.cancelledAt == r.cancellation.value.cancellation.createdAt)
    && (r.cancellation.Some? ==> CancelledBy(c, maker, id, r.cancellation.value))
    && (r.status == Matched ==> r.matched.Some? && r.acceptance.Some? && r.matchedAt == r.matched.value.payload.createdAt)
    && (r.matched.Some? ==> r.acceptance.Some? && MatchedBy(c, maker, id, r.matched.value, r.acceptance.value))
  }

  predicate CancelledBy(c: Crypto, maker: string, id: string, x: SignedOrderCancellation) {
    && x.cancellation.orderID == id && x.cancellation.makerPublicKey == maker
    && c.signed(maker, Encoding.SigningBytes(Encoding.OrderCancelRecord(x.cancellation)), x.signature)
  }

  predicate MatchedBy(c: Crypto, maker: string, id: string, m: SignedMatch, a: SignedAcceptance) {
    && m.payload.orderID == id && m.payload.makerPublicKey == maker
    && m.payload.acceptanceID == a.id && m.payload.tradeID == a.acceptance.tradeID
    && m.payload.takerPublicKey == a.acceptance.takerPublicKey != maker && a.acceptance.orderID == id
    && a.acceptance.createdAt <= m.payload.createdAt <= a.acceptance.expiresAt
    && c.signed(maker, Encoding.SigningBytes(Encoding.MatchRecord(m.payload)), m.signature)
  }

  predicate AcceptanceSigned(c: Crypto, id: string, r: Relay.AcceptanceRecord) {
    var a := r.signed;
    && a.id == id
    && c.signed(a.acceptance.takerPublicKey, Encoding.SigningBytes(Encoding.AcceptanceRecord(a.acceptance)), a.signature)
  }

  predicate CancellationSigned(c: Crypto, key: CancelKey, r: CancellationRecord) {
    var x := r.signed;
    && key == (x.cancellation.acceptanceID, x.cancellation.takerPublicKey)
    && c.signed(key.1, Encoding.SigningBytes(Encoding.AcceptanceCancelRecord(x.cancellation)), x.signature)
  }

  predicate MessageSigned(c: Crypto, id: string, m: SignedMessage) {
    m.id == id && c.signed(m.message.senderPublicKey, Encoding.SigningBytes(Encoding.MessageRecord(m.message)), m.signature)
  }

  /** All of it. */
  predicate AllSigned(c: Crypto, db: Db) {
    && (forall k :: k in db.orders ==> OrderSigned(c, k, db.orders[k]))
    && (forall k :: k in db.acceptances ==> AcceptanceSigned(c, k, db.acceptances[k]))
    && (forall k :: k in db.cancellations ==> CancellationSigned(c, k, db.cancellations[k]))
    && (forall k :: k in db.messages ==> MessageSigned(c, k, db.messages[k]))
  }

  lemma OrderIsSigned(c: Crypto, s: SignedOrder, now: int)
    requires OrderVerified(c, s, now)
    ensures OrderSigned(c, s.id, Relay.OrderRecord(s, Open, now, 0, None, 0, None, None))
  {
    hide OrderValid;
  }

  lemma CancellationIsSigned(c: Crypto, x: SignedOrderCancellation, now: int)
    requires OrderCancellationVerified(c, x, now)
    ensures CancelledBy(c, x.cancellation.makerPublicKey, x.cancellation.orderID, x)
  {
  }

  lemma AcceptanceIsSigned(c: Crypto, a: SignedAcceptance, s: SignedOrder, now: int)
    requires AcceptanceVerified(c, a, s, now)
    ensures AcceptanceSigned(c, a.id, Relay.AcceptanceRecord(a, now, 0, None)) && a.acceptance.orderID == s.id
  {
    hide OrderVerified;
  }

  lemma RevocationIsSigned(c: Crypto, x: SignedAcceptanceCancellation, now: int, known: bool)
    requires CancellationVerified(c, x, now)
    ensures CancellationSigned(c, (x.cancellation.acceptanceID, x.cancellation.takerPublicKey), CancellationRecord(x, now, known))
  {
  }

  lemma MatchIsSigned(c: Crypto, m: SignedMatch, s: SignedOrder, a: SignedAcceptance, now: int)
    requires MatchVerified(c, m, s, a, now)
    ensures MatchedBy(c, s.order.makerPublicKey, s.id, m, a)
  {
    hide OrderVerified, KeysValid, FundingValid, LifetimeValid, BitcoinKeyValid;
  }

  lemma MessageIsSigned(c: Crypto, m: SignedMessage, now: int)
    requires MessageVerified(c, m, now)
    ensures MessageSigned(c, m.id, m)
  {
    hide MessageValid;
  }

  lemma PublishSigned(c: Crypto, db: Db, op: Op, now: int)
    requires AllSigned(c, db) && op.PublishOrder?
    ensures AllSigned(c, After(c, db, op, now))
  {
    hide OrderVerified, OpenOf, OrderSigned, AcceptanceSigned, CancellationSigned, MessageSigned;
    if OrderVerified(c, op.order, now) {
      OrderIsSigned(c, op.order, now);
    }
  }

  lemma CancelOrderSigned(c: Crypto, db: Db, op: Op, now: int)
    requires AllSigned(c, db) && op.CancelOrder?
    ensures AllSigned(c, After(c, db, op, now))
  {
    hide OrderCancellationVerified, AcceptanceSigned, CancellationSigned, MessageSigned, CancelledBy, MatchedBy;
    if OrderCancellationVerified(c, op.orderCancellation, now) {
      CancellationIsSigned(c, op.orderCancellation, now);
    }
  }

  lemma SubmitSigned(c: Crypto, db: Db, op: Op, now: int)
    requires AllSigned(c, db) && op.Submit?
    ensures AllSigned(c, After(c, db, op, now))
  {
    hide AcceptanceVerified, Tombstoned, Pending, AppendTo, OrderSigned, AcceptanceSigned, CancellationSigned, MessageSigned;
    if op.orderID in db.orders && AcceptanceVerified(c, op.acceptance, db.orders[op.orderID].signed, now) {
      AcceptanceIsSigned(c, op.acceptance, db.orders[op.orderID].signed, now);
    }
  }

  lemma RevokedShape(c: Crypto, db: Db, orderID: string, id: string, x: SignedAcceptanceCancellation, now: int)
    requires Revoked(c, db, orderID, id, x, now).Ok?
    ensures CancellationVerified(c, x, now)
    ensures
      var after, key := Revoked(c, db, orderID, id, x, now).value.0, (x.cancellation.acceptanceID, x.cancellation.takerPublicKey);
      && after.orders == db.orders && after.messages == db.messages
      && (after.cancellations == db.cancellations
          || exists known :: after.cancellations == db.cancellations[key := CancellationRecord(x, now, known)])
  {
    hide CancellationVerified, Binds, CancelledFor;
    var key := (x.cancellation.acceptanceID, x.cancellation.takerPublicKey);
    var after := Revoked(c, db, orderID, id, x, now).value.0;
    if after.cancellations != db.cancellations {
      assert after.cancellations == db.cancellations[key := CancellationRecord(x, now, id in db.acceptances)];
    }
  }

  lemma RevokedRecord(c: Crypto, db: Db, op: Op, now: int)
    requires AllSigned(c, db) && op.Cancel?
    requires Revoked(c, db, op.orderID, op.acceptanceID, op.cancellation, now).Ok?
    ensures
      var after := Revoked(c, db, op.orderID, op.acceptanceID, op.cancellation, now).value.0;
      && after.orders == db.orders && after.messages == db.messages
      && forall k :: k in after.cancellations ==> CancellationSigned(c, k, after.cancellations[k])
  {
    hide Revoked, OrderSigned, CancellationSigned, MessageSigned, AcceptanceSigned;
    var x := op.cancellation;
    RevokedShape(c, db, op.orderID, op.acceptanceID, x, now);
    RevocationIsSigned(c, x, now, true);
    RevocationIsSigned(c, x, now, false);
  }

  lemma RevokedSigned(c: Crypto, db: Db, after: Db)
    requires AllSigned(c, db) && after.orders == db.orders && after.messages == db.messages
    requires forall k :: k in after.cancellations ==> CancellationSigned(c, k, after.cancellations[k])
    requires forall k :: k in after.acceptances ==> k in db.acceptances && after.acceptances[k].signed == db.acceptances[k].signed
    ensures AllSigned(c, after)
  {
    hide OrderSigned, CancellationSigned, MessageSigned;
  }

  lemma RevokeSigned(c: Crypto, db: Db, op: Op, now: int)
    requires AllSigned(c, db) && op.Cancel?
    ensures AllSigned(c, After(c, db, op, now))
  {
    hide Revoked, AllSigned;
    var r := Revoked(c, db, op.orderID, op.acceptanceID, op.cancellation, now);
    if r.Ok? {
      Scenes.RevokedMarks(c, db, op.orderID, op.acceptanceID, op.cancellation, now);
      RevokedRecord(c, db, op, now);
      RevokedSigned(c, db, r.value.0);
    }
  }

  lemma ConfirmedAgain(c: Crypto, db: Db, id: string, m: SignedMatch, now: int)
    ensures Confirmed(c, db, id, m, now).Ok? && !Confirmed(c, db, id, m, now).value.2 ==>
              Confirmed(c, db, id, m, now).value.0 == db
  {
    hide MatchVerified, AppendTo;
  }

  lemma ConfirmedOrder(c: Crypto, db: Db, id: string, m: SignedMatch, now: int)
    requires AllSigned(c, db) && Confirmed(c, db, id, m, now).Ok? && Confirmed(c, db, id, m, now).value.2
    ensures
      var (after, r, _) := Confirmed(c, db, id, m, now).value;
      && after == db.(orders := db.orders[id := r], mailboxes := after.mailboxes) && OrderSigned(c, id, r)
  {
    hide MatchVerified, AppendTo, AcceptanceSigned, CancellationSigned, MessageSigned, CancelledBy, MatchedBy;
    var s, a := db.orders[id].signed, db.acceptances[m.payload.acceptanceID].signed;
    MatchIsSigned(c, m, s, a, now);
  }

  lemma OneOrderSigned(c: Crypto, db: Db, after: Db, id: string, r: Relay.OrderRecord)
    requires AllSigned(c, db) && OrderSigned(c, id, r)
    requires after == db.(orders := db.orders[id := r], mailboxes := after.mailboxes)
    ensures AllSigned(c, after)
  {
    hide OrderSigned, AcceptanceSigned, CancellationSigned, MessageSigned;
  }

  lemma MatchSigned(c: Crypto, db: Db, op: Op, now: int)
    requires AllSigned(c, db) && op.Match?
    ensures AllSigned(c, After(c, db, op, now))
  {
    hide Confirmed, AllSigned, MatchVerified;
    var r := Confirmed(c, db, op.orderID, op.matched, now);
    if r.Ok? && r.value.2 {
      ConfirmedOrder(c, db, op.orderID, op.matched, now);
      OneOrderSigned(c, db, r.value.0, op.orderID, r.value.1);
    } else {
      ConfirmedAgain(c, db, op.orderID, op.matched, now);
    }
  }

  lemma MessageStepSigned(c: Crypto, db: Db, op: Op, now: int)
    requires AllSigned(c, db) && op.Message?
    ensures AllSigned(c, After(c, db, op, now))
  {
    hide MessageVerified, Routed, AppendTo, OrderSigned, AcceptanceSigned, CancellationSigned, MessageSigned;
    if MessageVerified(c, op.message, now) {
      MessageIsSigned(c, op.message, now);
    }
  }

  lemma StepSigned(c: Crypto, db: Db, op: Op, now: int)
    requires AllSigned(c, db)
    ensures AllSigned(c, After(c, db, op, now))
  {
    hide AllSigned, After;
    match op {
      case PublishOrder(_) => PublishSigned(c, db, op, now);
      case CancelOrder(_) => CancelOrderSigned(c, db, op, now);
      case Submit(_, _) => SubmitSigned(c, db, op, now);
      case Cancel(_, _, _) => RevokeSigned(c, db, op, now);
      case Match(_, _) => MatchSigned(c, db, op, now);
      case Message(_) => MessageStepSigned(c, db, op, now);
    }
  }

  /** In every reachable state each stored record is signed under the key it names, on its own signing bytes, and
      no order is cancelled or matched without its maker's signature. */
  lemma {:induction false} AlwaysSigned(c: Crypto, ops: seq<(Op, int)>)
    ensures AllSigned(c, Run(c, ops))
  {
    if |ops| > 0 {
      hide AllSigned, After;
      AlwaysSigned(c, ops[..|ops| - 1]);
      StepSigned(c, Run(c, ops[..|ops| - 1]), ops[|ops| - 1].0, ops[|ops| - 1].1);
    }
  }

  // ----- matches in the mailboxes

  /** The order a match in someone's mailbox belongs to stands matched by it, and the mailbox is its taker's. */
  predicate MatchBelongs(orders: map<string, Relay.OrderRecord>, owner: string, m: SignedMatch) {
    var id := m.payload.orderID;
    && id in orders && orders[id].status == Matched && orders[id].matched == Some(m)
    && orders[id].acceptance.Some? && orders[id].acceptance.value.acceptance.takerPublicKey == owner
  }

  predicate MatchesBelong(orders: map<string, Relay.OrderRecord>, owner: string, items: seq<MailboxItem>) {
    forall i :: 0 <= i < |items| && items[i].content.MatchItem? ==> MatchBelongs(orders, owner, items[i].content.matched)
  }

  predicate MatchesOnce(items: seq<MailboxItem>) {
    forall i, j :: 0 <= i < j < |items| && items[i].content.MatchItem? && items[j].content.MatchItem? ==>
      items[i].content.matched.payload.orderID != items[j].content.matched.payload.orderID
  }

  ghost predicate HasContent(box: Mailbox, content: Content) {
    exists i :: 0 <= i < |box.items| && box.items[i].content == content
  }

  ghost predicate MatchDelivered(r: Relay.OrderRecord, mailboxes: map<string, Mailbox>) {
    && r.matched.Some? && r.acceptance.Some?
    && HasContent(BoxOf(mailboxes, r.acceptance.value.acceptance.takerPublicKey), MatchItem(r.matched.value))
  }

  ghost predicate MatchesFiled(db: Db) {
    && (forall o :: MatchesBelong(db.orders, o, BoxOf(db.mailboxes, o).items) && MatchesOnce(BoxOf(db.mailboxes, o).items))
    && (forall k :: k in db.orders && db.orders[k].status == Matched ==> MatchDelivered(db.orders[k], db.mailboxes))
  }

  /** Orders that are matched stay as they are. */
  predicate MatchedKept(before: map<string, Relay.OrderRecord>, after: map<string, Relay.OrderRecord>) {
    && (forall k :: k in before && before[k].status == Matched ==> k in after && after[k] == before[k])
    && (forall k :: k in after && after[k].status == Matched ==> k in before && before[k] == after[k])
  }

  lemma HasContentAppended(mailboxes: map<string, Mailbox>, o: string, at: int, content: Content, owner: string, wanted: Content)
    requires HasContent(BoxOf(mailboxes, owner), wanted) || (owner == o && content == wanted)
    ensures HasContent(BoxOf(AppendTo(mailboxes, o, at, content), owner), wanted)
  {
    var after := AppendTo(mailboxes, o, at, content);
    AppendOnly(mailboxes, o, at, content);
    if HasContent(BoxOf(mailboxes, owner), wanted) {
      var i :| 0 <= i < |BoxOf(mailboxes, owner).items| && BoxOf(mailboxes, owner).items[i].content == wanted;
      assert BoxOf(after, owner).items[i] == BoxOf(mailboxes, owner).items[i];
    } else {
      var items := BoxOf(after, o).items;
      assert items[|items| - 1].content == content;
    }
  }

  /** Another item changes nothing about the matches in the mailboxes. */
  lemma OtherMail(db: Db, after: Db, o: string, at: int, content: Content)
    requires MatchesFiled(db) && !content.MatchItem? && MatchedKept(db.orders, after.orders)
    requires after.mailboxes == AppendTo(db.mailboxes, o, at, content)
    ensures MatchesFiled(after)
  {
    hide MatchBelongs, HasContent;
    forall p
      ensures MatchesBelong(after.orders, p, BoxOf(after.mailboxes, p).items) && MatchesOnce(BoxOf(after.mailboxes, p).items)
    {
      BelongLater(db.orders, after.orders, p, BoxOf(db.mailboxes, p).items);
    }
    forall k | k in after.orders && after.orders[k].status == Matched
      ensures MatchDelivered(after.orders[k], after.mailboxes)
    {
      var r := db.orders[k];
      HasContentAppended(db.mailboxes, o, at, content, r.acceptance.value.acceptance.takerPublicKey, MatchItem(r.matched.value));
    }
  }

  lemma BelongLater(before: map<string, Relay.OrderRecord>, after: map<string, Relay.OrderRecord>, o: string, items: seq<MailboxItem>)
    requires MatchesBelong(before, o, items) && MatchedKept(before, after)
    ensures MatchesBelong(after, o, items)
  {
  }

  lemma SameMail(db: Db, after: Db)
    requires MatchesFiled(db) && MatchedKept(db.orders, after.orders) && after.mailboxes == db.mailboxes
    ensures MatchesFiled(after)
  {
    hide MatchesOnce, HasContent;
    forall o
      ensures MatchesBelong(after.orders, o, BoxOf(after.mailboxes, o).items)
    {
      BelongLater(db.orders, after.orders, o, BoxOf(db.mailboxes, o).items);
    }
  }

  /** A new match goes to the taker it names. */
  lemma NewMatch(db: Db, after: Db, id: string, r: Relay.OrderRecord, a: SignedAcceptance, m: SignedMatch, at: int)
    requires MatchesFiled(db) && id in db.orders && db.orders[id].status != Matched && m.payload.orderID == id
    requires r.status == Matched && r.matched == Some(m) && r.acceptance == Some(a) && after.orders == db.orders[id := r]
    requires after.mailboxes == AppendTo(db.mailboxes, a.acceptance.takerPublicKey, at, MatchItem(m))
    ensures MatchesFiled(after)
  {
    hide HasContent;
    var o := a.acceptance.takerPublicKey;
    forall p
      ensures MatchesBelong(after.orders, p, BoxOf(after.mailboxes, p).items) && MatchesOnce(BoxOf(after.mailboxes, p).items)
    {
      assert MatchesBelong(db.orders, p, BoxOf(db.mailboxes, p).items) && MatchesOnce(BoxOf(db.mailboxes, p).items);
    }
    forall k | k in after.orders && after.orders[k].status == Matched
      ensures MatchDelivered(after.orders[k], after.mailboxes)
    {
      var s := after.orders[k];
      HasContentAppended(db.mailboxes, o, at, MatchItem(m), s.acceptance.value.acceptance.takerPublicKey, MatchItem(s.matched.value));
    }
  }

  lemma PublishKeepsMatched(c: Crypto, db: Db, op: Op, now: int)
    requires op.PublishOrder? || op.CancelOrder?
    ensures MatchedKept(db.orders, After(c, db, op, now).orders) && After(c, db, op, now).mailboxes == db.mailboxes
  {
    hide OrderVerified, OpenOf, OrderCancellationVerified;
  }

  lemma RevokeKeepsOrders(c: Crypto, db: Db, op: Op, now: int)
    requires op.Cancel?
    ensures After(c, db, op, now).orders == db.orders && After(c, db, op, now).mailboxes == db.mailboxes
  {
    hide After;
    Snapshot.RevokedLeavesOrders(c, db, op, now);
    OrdersLeaveMail(c, db, op, now);
  }

  lemma SubmitMail(c: Crypto, db: Db, op: Op, now: int)
    requires MatchesFiled(db) && op.Submit?
    ensures MatchesFiled(After(c, db, op, now))
  {
    hide MatchesFiled, AcceptanceVerified, Tombstoned, Pending, AppendTo;
    var r := Submitted(c, db, op.orderID, op.acceptance, now);
    if r.Ok? && r.value.2 {
      OtherMail(db, r.value.0, db.orders[op.orderID].signed.order.makerPublicKey, now, AcceptanceItem(r.value.1));
    }
  }

  lemma MessageMail(c: Crypto, db: Db, op: Op, now: int)
    requires MatchesFiled(db) && op.Message?
    ensures MatchesFiled(After(c, db, op, now))
  {
    hide MatchesFiled, MessageVerified, Routed, AppendTo;
    var r := Sent(c, db, op.message, now);
    if r.Ok? && r.value.1 {
      OtherMail(db, r.value.0, op.message.message.recipientPublicKey, now, MessageItem(op.message));
    }
  }

  lemma MatchMail(c: Crypto, db: Db, op: Op, now: int)
    requires MatchesFiled(db) && AllSigned(c, db) && op.Match?
    ensures MatchesFiled(After(c, db, op, now))
  {
    hide MatchesFiled, MatchVerified, AppendTo, AcceptanceSigned, CancellationSigned, MessageSigned, MatchedBy, CancelledBy;
    var r := Confirmed(c, db, op.orderID, op.matched, now);
    if r.Ok? && r.value.2 {
      var a := db.acceptances[op.matched.payload.acceptanceID].signed;
      assert MatchVerified(c, op.matched, db.orders[op.orderID].signed, a, now);
      MatchNames(c, op.matched, db.orders[op.orderID].signed, a, now);
      NewMatch(db, r.value.0, op.orderID, r.value.1, a, op.matched, now);
    }
  }

  lemma MatchNames(c: Crypto, m: SignedMatch, s: SignedOrder, a: SignedAcceptance, now: int)
    requires MatchVerified(c, m, s, a, now)
    ensures m.payload.orderID == s.id
  {
    hide AcceptanceVerified;
  }

  lemma StepMatchesFiled(c: Crypto, db: Db, op: Op, now: int)
    requires MatchesFiled(db) && AllSigned(c, db)
    ensures MatchesFiled(After(c, db, op, now))
  {
    hide MatchesFiled, AllSigned, After;
    match op {
      case Submit(_, _) => SubmitMail(c, db, op, now);
      case Message(_) => MessageMail(c, db, op, now);
      case Match(_, _) => MatchMail(c, db, op, now);
      case Cancel(_, _, _) =>
        RevokeKeepsOrders(c, db, op, now);
        SameMail(db, After(c, db, op, now));
      case _ =>
        PublishKeepsMatched(c, db, op, now);
        SameMail(db, After(c, db, op, now));
    }
  }

  lemma {:induction false} MatchesAlwaysFiled(c: Crypto, ops: seq<(Op, int)>)
    ensures MatchesFiled(Run(c, ops))
  {
    if |ops| > 0 {
      hide MatchesFiled, After;
      MatchesAlwaysFiled(c, ops[..|ops| - 1]);
      AlwaysSigned(c, ops[..|ops| - 1]);
      StepMatchesFiled(c, Run(c, ops[..|ops| - 1]), ops[|ops| - 1].0, ops[|ops| - 1].1);
    }
  }

  /** In every reachable state the match of a matched order stands in its taker's mailbox exactly once, and in no
      other mailbox. */
  lemma MatchDeliveredOnce(c: Crypto, ops: seq<(Op, int)>, id: string) returns (i: nat)
    requires id in Run(c, ops).orders && Run(c, ops).orders[id].status == Matched
    ensures
      var db := Run(c, ops);
      var r := db.orders[id];
      && r.matched.Some? && r.acceptance.Some?
      && var taker := r.acceptance.value.acceptance.takerPublicKey;
      && i < |BoxOf(db.mailboxes, taker).items| && BoxOf(db.mailboxes, taker).items[i].content == MatchItem(r.matched.value)
      && forall o, j ::
           0 <= j < |BoxOf(db.mailboxes, o).items| && BoxOf(db.mailboxes, o).items[j].content == MatchItem(r.matched.value) ==>
             o == taker && j == i
  {
    hide Run;
    MatchesAlwaysFiled(c, ops);
    AlwaysSigned(c, ops);
    var db := Run(c, ops);
    var r := db.orders[id];
    var taker := r.acceptance.value.acceptance.takerPublicKey;
    i :| 0 <= i < |BoxOf(db.mailboxes, taker).items| && BoxOf(db.mailboxes, taker).items[i].content == MatchItem(r.matched.value);
    forall o, j | 0 <= j < |BoxOf(db.mailboxes, o).items| && BoxOf(db.mailboxes, o).items[j].content == MatchItem(r.matched.value)
      ensures o == taker && j == i
    {
      assert MatchBelongs(db.orders, o, r.matched.value);
      assert MatchesOnce(BoxOf(db.mailboxes, o).items);
    }
  }

  // ----- acceptances in the mailboxes

  ghost predicate HasAcceptance(box: Mailbox, a: SignedAcceptance) {
    exists i :: 0 <= i < |box.items| && box.items[i].content.AcceptanceItem? && box.items[i].content.acceptance.signed == a
  }

  /** Every stored acceptance waits in the mailbox of the maker whose order it accepts. */
  ghost predicate AcceptanceDelivered(db: Db, a: SignedAcceptance) {
    && a.acceptance.orderID in db.orders
    && HasAcceptance(BoxOf(db.mailboxes, db.orders[a.acceptance.orderID].signed.order.makerPublicKey), a)
  }

  ghost predicate AcceptancesDelivered(db: Db) {
    forall id :: id in db.acceptances ==> AcceptanceDelivered(db, db.acceptances[id].signed)
  }

  /** Orders keep what was signed, and mail only arrives. */
  ghost predicate OnlyMore(db: Db, after: Db) {
    && (forall k :: k in db.orders ==> k in after.orders && after.orders[k].signed == db.orders[k].signed)
    && forall o :: BoxOf(db.mailboxes, o).items <= BoxOf(after.mailboxes, o).items
  }

  lemma DeliveredLater(db: Db, after: Db, a: SignedAcceptance)
    requires AcceptanceDelivered(db, a) && OnlyMore(db, after)
    ensures AcceptanceDelivered(after, a)
  {
    hide BoxOf;
    var o := db.orders[a.acceptance.orderID].signed.order.makerPublicKey;
    var before := BoxOf(db.mailboxes, o).items;
    var i :| 0 <= i < |before| && before[i].content.AcceptanceItem? && before[i].content.acceptance.signed == a;
    assert BoxOf(after.mailboxes, o).items[i] == before[i];
  }

  lemma OpOnlyMore(c: Crypto, db: Db, op: Op, now: int)
    ensures OnlyMore(db, After(c, db, op, now))
  {
    hide After, BoxOf;
    OrdersKeepSigned(c, db, op, now);
    Scenes.OpAppends(c, db, op, now);
    var after := After(c, db, op, now);
    if after.mailboxes != db.mailboxes {
      var owner, content :| after.mailboxes == AppendTo(db.mailboxes, owner, now, content);
      AppendOnly(db.mailboxes, owner, now, content);
    }
  }

  lemma PublishKeepsSigned(c: Crypto, db: Db, op: Op, now: int)
    requires op.PublishOrder?
    ensures
      var after := After(c, db, op, now);
      forall k :: k in db.orders ==> k in after.orders && after.orders[k].signed == db.orders[k].signed
  {
    hide OrderVerified, OpenOf;
  }

  lemma CancelKeepsSigned(c: Crypto, db: Db, op: Op, now: int)
    requires op.CancelOrder?
    ensures
      var after := After(c, db, op, now);
      forall k :: k in db.orders ==> k in after.orders && after.orders[k].signed == db.orders[k].signed
  {
    hide OrderCancellationVerified;
  }

  lemma MatchKeepsSigned(c: Crypto, db: Db, op: Op, now: int)
    requires op.Match?
    ensures
      var after := After(c, db, op, now);
      forall k :: k in db.orders ==> k in after.orders && after.orders[k].signed == db.orders[k].signed
  {
    hide AppendTo, MatchVerified;
  }

  lemma OrdersKeepSigned(c: Crypto, db: Db, op: Op, now: int)
    ensures
      var after := After(c, db, op, now);
      forall k :: k in db.orders ==> k in after.orders && after.orders[k].signed == db.orders[k].signed
  {
    hide After;
    match op {
      case PublishOrder(_) => PublishKeepsSigned(c, db, op, now);
      case CancelOrder(_) => CancelKeepsSigned(c, db, op, now);
      case Match(_, _) => MatchKeepsSigned(c, db, op, now);
      case _ => Snapshot.OrdersLeft(c, db, op, now);
    }
  }

  /** Where an operation can bring in an acceptance, or change one. */
  lemma AcceptanceFrom(c: Crypto, db: Db, op: Op, now: int, id: string)
    requires AllSigned(c, db) && id in After(c, db, op, now).acceptances
    ensures
      var a := After(c, db, op, now).acceptances[id].signed;
      || (id in db.acceptances && db.acceptances[id].signed == a)
      || AcceptanceDelivered(After(c, db, op, now), a)
  {
    match op {
      case Submit(_, _) => SubmittedFrom(c, db, op, now, id);
      case Cancel(_, _, _) => RevokedFrom(c, db, op, now, id);
      case _ =>
        hide After;
        UntouchedByOthers(c, db, op, now);
    }
  }

  lemma OrderKeys(c: Crypto, db: Db)
    requires AllSigned(c, db)
    ensures forall k :: k in db.orders ==> db.orders[k].signed.id == k
  {
    hide AcceptanceSigned, CancellationSigned, MessageSigned, CancelledBy, MatchedBy;
  }

  lemma SubmittedAgain(c: Crypto, db: Db, orderID: string, a: SignedAcceptance, now: int)
    ensures Submitted(c, db, orderID, a, now).Ok? && !Submitted(c, db, orderID, a, now).value.2 ==>
              Submitted(c, db, orderID, a, now).value.0 == db
  {
    hide AcceptanceVerified, Tombstoned, Pending, AppendTo;
  }

  lemma SubmittedIn(c: Crypto, db: Db, orderID: string, a: SignedAcceptance, now: int)
    requires Submitted(c, db, orderID, a, now).Ok?
    ensures orderID in db.orders
  {
    hide AcceptanceVerified, Tombstoned, Pending, AppendTo;
  }

  lemma SubmittedShape(c: Crypto, db: Db, orderID: string, a: SignedAcceptance, now: int)
    requires orderID in db.orders && db.orders[orderID].signed.id == orderID
    requires Submitted(c, db, orderID, a, now).Ok? && Submitted(c, db, orderID, a, now).value.2
    ensures
      var (after, r, _) := Submitted(c, db, orderID, a, now).value;
      && r.signed == a && a.acceptance.orderID == orderID
      && after.orders == db.orders && after.acceptances == db.acceptances[a.id := r]
      && after.mailboxes == AppendTo(db.mailboxes, db.orders[orderID].signed.order.makerPublicKey, now, AcceptanceItem(r))
  {
    hide AcceptanceVerified, Tombstoned, Pending, AppendTo;
    assert AcceptanceVerified(c, a, db.orders[orderID].signed, now);
    Scenes.AcceptsOrder(c, a, db.orders[orderID].signed, now);
  }

  lemma StoredDelivered(db: Db, after: Db, orderID: string, r: Relay.AcceptanceRecord, now: int)
    requires orderID in db.orders && r.signed.acceptance.orderID == orderID && after.orders == db.orders
    requires after.mailboxes == AppendTo(db.mailboxes, db.orders[orderID].signed.order.makerPublicKey, now, AcceptanceItem(r))
    ensures AcceptanceDelivered(after, r.signed)
  {
    hide AppendTo, BoxOf;
    var o := db.orders[orderID].signed.order.makerPublicKey;
    AppendOnly(db.mailboxes, o, now, AcceptanceItem(r));
    var items := BoxOf(after.mailboxes, o).items;
    assert items[|items| - 1].content == AcceptanceItem(r);
  }

  lemma SubmittedFrom(c: Crypto, db: Db, op: Op, now: int, id: string)
    requires AllSigned(c, db) && op.Submit? && id in After(c, db, op, now).acceptances
    ensures
      var a := After(c, db, op, now).acceptances[id].signed;
      (id in db.acceptances && db.acceptances[id].signed == a) || AcceptanceDelivered(After(c, db, op, now), a)
  {
    hide Submitted, AllSigned, AcceptanceDelivered;
    var r := Submitted(c, db, op.orderID, op.acceptance, now);
    if r.Ok? && r.value.2 {
      OrderKeys(c, db);
      SubmittedIn(c, db, op.orderID, op.acceptance, now);
      SubmittedShape(c, db, op.orderID, op.acceptance, now);
      StoredDelivered(db, r.value.0, op.orderID, r.value.1, now);
    } else {
      SubmittedAgain(c, db, op.orderID, op.acceptance, now);
    }
  }

  lemma RevokedFrom(c: Crypto, db: Db, op: Op, now: int, id: string)
    requires op.Cancel? && id in After(c, db, op, now).acceptances
    ensures id in db.acceptances && db.acceptances[id].signed == After(c, db, op, now).acceptances[id].signed
  {
    hide Revoked;
    if Revoked(c, db, op.orderID, op.acceptanceID, op.cancellation, now).Ok? {
      Scenes.RevokedMarks(c, db, op.orderID, op.acceptanceID, op.cancellation, now);
    }
  }

  lemma StepDelivered(c: Crypto, db: Db, op: Op, now: int)
    requires AllSigned(c, db) && AcceptancesDelivered(db)
    ensures AcceptancesDelivered(After(c, db, op, now))
  {
    hide AllSigned, After, AcceptanceDelivered, OnlyMore;
    OpOnlyMore(c, db, op, now);
    var after := After(c, db, op, now);
    forall id | id in after.acceptances
      ensures AcceptanceDelivered(after, after.acceptances[id].signed)
    {
      AcceptanceFrom(c, db, op, now, id);
      if id in db.acceptances && db.acceptances[id].signed == after.acceptances[id].signed {
        DeliveredLater(db, after, db.acceptances[id].signed);
      }
    }
  }

  lemma {:induction false} AcceptancesAlwaysDelivered(c: Crypto, ops: seq<(Op, int)>)
    ensures AcceptancesDelivered(Run(c, ops))
  {
    if |ops| > 0 {
      hide AcceptancesDelivered, After, AllSigned;
      AcceptancesAlwaysDelivered(c, ops[..|ops| - 1]);
      AlwaysSigned(c, ops[..|ops| - 1]);
      StepDelivered(c, Run(c, ops[..|ops| - 1]), ops[|ops| - 1].0, ops[|ops| - 1].1);
    }
  }

  /** In every reachable state a stored acceptance stands in the mailbox of the maker of its order exactly once. */
  lemma AcceptanceDeliveredOnce(c: Crypto, ops: seq<(Op, int)>, id: string) returns (i: nat)
    requires ClockRuns(ops) && id in Run(c, ops).acceptances
    ensures
      var db := Run(c, ops);
      var a := db.acceptances[id].signed;
      && a.id == id && a.acceptance.orderID in db.orders
      && var items := BoxOf(db.mailboxes, db.orders[a.acceptance.orderID].signed.order.makerPublicKey).items;
      && i < |items| && items[i].content.AcceptanceItem? && items[i].content.acceptance.signed == a
      && forall j :: 0 <= j < |items| && items[j].content.AcceptanceItem? && items[j].content.acceptance.signed.id == id ==> j == i
  {
    hide Run, ClockRuns, OrderSigned, CancellationSigned, MessageSigned;
    AlwaysSigned(c, ops);
    AcceptancesAlwaysDelivered(c, ops);
    var db := Run(c, ops);
    var a := db.acceptances[id].signed;
    assert AcceptanceDelivered(db, a);
    var maker := db.orders[a.acceptance.orderID].signed.order.makerPublicKey;
    var items := BoxOf(db.mailboxes, maker).items;
    i :| 0 <= i < |items| && items[i].content.AcceptanceItem? && items[i].content.acceptance.signed == a;
    Scenes.AcceptancesAlwaysFiled(c, ops, maker);
  }

  // ----- messages

  /** A message belongs to a matched order, names its trade and runs between its maker and its taker. */
  predicate MessageBelongs(orders: map<string, Relay.OrderRecord>, m: SignedMessage) {
    var id, p := m.message.orderID, m.message;
    && id in orders && orders[id].status == Matched && orders[id].matched.Some? && orders[id].acceptance.Some?
    && p.network == orders[id].signed.order.network && p.tradeID == orders[id].matched.value.payload.tradeID
    && p.createdAt >= orders[id].matchedAt
    && var maker, taker := orders[id].signed.order.makerPublicKey, orders[id].acceptance.value.acceptance.takerPublicKey;
       (p.senderPublicKey == maker && p.recipientPublicKey == taker) || (p.senderPublicKey == taker && p.recipientPublicKey == maker)
  }

  predicate MessagesBelong(db: Db) {
    forall id :: id in db.messages ==> MessageBelongs(db.orders, db.messages[id])
  }

  lemma BelongsLater(c: Crypto, db: Db, op: Op, now: int, m: SignedMessage)
    requires MessageBelongs(db.orders, m)
    ensures MessageBelongs(After(c, db, op, now).orders, m)
  {
    hide After;
    Snapshot.MatchedStays(c, db, op, now, m.message.orderID);
  }

  /** Where an operation can bring in a message. */
  lemma MessageFrom(c: Crypto, db: Db, op: Op, now: int, id: string)
    requires id in After(c, db, op, now).messages
    ensures
      var m := After(c, db, op, now).messages[id];
      (id in db.messages && db.messages[id] == m) || MessageBelongs(db.orders, m)
  {
    if op.Message? {
      hide MessageVerified, AppendTo;
    } else {
      hide After;
      OthersLeaveMessages(c, db, op, now);
    }
  }

  lemma SubmitLeavesMessages(c: Crypto, db: Db, op: Op, now: int)
    requires op.Submit?
    ensures After(c, db, op, now).messages == db.messages
  {
    hide AcceptanceVerified, Tombstoned, Pending, AppendTo;
  }

  lemma MatchLeavesMessages(c: Crypto, db: Db, op: Op, now: int)
    requires op.Match?
    ensures After(c, db, op, now).messages == db.messages
  {
    hide MatchVerified, AppendTo;
  }

  lemma OthersLeaveMessages(c: Crypto, db: Db, op: Op, now: int)
    requires !op.Message?
    ensures After(c, db, op, now).messages == db.messages
  {
    hide After;
    match op {
      case Submit(_, _) => SubmitLeavesMessages(c, db, op, now);
      case Match(_, _) => MatchLeavesMessages(c, db, op, now);
      case _ => OrdersLeaveMail(c, db, op, now);
    }
  }

  /** In every reachable state the relay holds no message but between the two parties of a matched trade. */
  lemma {:induction false} MessagesAlwaysBelong(c: Crypto, ops: seq<(Op, int)>)
    ensures MessagesBelong(Run(c, ops))
  {
    if |ops| > 0 {
      hide After, MessageBelongs;
      var front, op, now := ops[..|ops| - 1], ops[|ops| - 1].0, ops[|ops| - 1].1;
      MessagesAlwaysBelong(c, front);
      var db := Run(c, front);
      forall id | id in After(c, db, op, now).messages
        ensures MessageBelongs(After(c, db, op, now).orders, After(c, db, op, now).messages[id])
      {
        MessageFrom(c, db, op, now, id);
        BelongsLater(c, db, op, now, After(c, db, op, now).messages[id]);
      }
    }
  }

  // ----- orders

  lemma PublishLeavesOld(c: Crypto, db: Db, op: Op, now: int, id: string)
    requires op.PublishOrder? && id in db.orders
    ensures id in After(c, db, op, now).orders && After(c, db, op, now).orders[id] == db.orders[id]
  {
    hide OrderVerified, OpenOf;
  }

  lemma CancelClosesOpen(c: Crypto, db: Db, op: Op, now: int, id: string)
    requires op.CancelOrder? && id in db.orders && id in After(c, db, op, now).orders
    ensures
      var before, after := db.orders[id], After(c, db, op, now).orders[id];
      after == before || (before.status == Open && now < before.signed.order.expiresAt && after.status == Cancelled)
  {
    hide OrderCancellationVerified;
  }

  lemma MatchClosesOpen(c: Crypto, db: Db, op: Op, now: int, id: string)
    requires op.Match? && id in db.orders && id in After(c, db, op, now).orders
    ensures
      var before, after := db.orders[id], After(c, db, op, now).orders[id];
      after == before || (before.status == Open && now < before.signed.order.expiresAt && after.status == Matched)
  {
    hide MatchVerified, AppendTo;
  }

  /** An order changes only while it is open and has not expired, and only into a cancelled or a matched one; what
      was signed never changes. */
  lemma OrdersCloseOnly(c: Crypto, db: Db, op: Op, now: int, id: string)
    requires id in db.orders
    ensures
      var before, all := db.orders[id], After(c, db, op, now).orders;
      && id in all && all[id].signed == before.signed
      && (all[id] == before ||
          (before.status == Open && now < before.signed.order.expiresAt && all[id].status in {Cancelled, Matched}))
  {
    hide After;
    match op {
      case PublishOrder(_) =>
        PublishKeepsSigned(c, db, op, now);
        PublishLeavesOld(c, db, op, now, id);
      case CancelOrder(_) =>
        CancelKeepsSigned(c, db, op, now);
        CancelClosesOpen(c, db, op, now, id);
      case Match(_, _) =>
        MatchKeepsSigned(c, db, op, now);
        MatchClosesOpen(c, db, op, now, id);
      case _ => Snapshot.OrdersLeft(c, db, op, now);
    }
  }

  // ----- why the relay refuses

  predicate OpenAt(r: Relay.OrderRecord, now: int) {
    r.status == Open && now < r.signed.order.expiresAt
  }

  /** An order is refused for the quota only when its maker has a hundred others open. */
  lemma PublishRefusal(c: Crypto, db: Db, s: SignedOrder, now: int)
    ensures Published(c, db, s, now) == Err(MakerLimit) ==>
              |set k | k in db.orders && db.orders[k].signed.order.makerPublicKey == s.order.makerPublicKey && OpenAt(db.orders[k], now)| >= 100
  {
    hide OrderVerified;
    var maker := s.order.makerPublicKey;
    assert OpenOf(db.orders, maker, now) ==
           set k | k in db.orders && db.orders[k].signed.order.makerPublicKey == maker && OpenAt(db.orders[k], now);
  }

  /** An acceptance of this order that still waits for its maker. */
  predicate Waiting(r: Relay.AcceptanceRecord, orderID: string, now: int) {
    r.signed.acceptance.orderID == orderID && now < r.signed.acceptance.expiresAt && r.cancelledAt == 0
  }

  /** An acceptance is stored only while its order is open, while no other of the same taker waits and fewer than
      a hundred do; and it is refused only because the order is not open, because this very acceptance was
      cancelled, because another one of the same taker waits, or because a hundred do. */
  lemma SubmitDecided(c: Crypto, db: Db, orderID: string, a: SignedAcceptance, now: int)
    ensures
      match Submitted(c, db, orderID, a, now)
      case Ok((_, _, true)) =>
        && orderID in db.orders && OpenAt(db.orders[orderID], now)
        && (forall k :: k in db.acceptances && Waiting(db.acceptances[k], orderID, now) ==>
              db.acceptances[k].signed.acceptance.takerPublicKey != a.acceptance.takerPublicKey)
        && |set k | k in db.acceptances && Waiting(db.acceptances[k], orderID, now)| < 100
      case Err(NotOpen) => orderID in db.orders && !OpenAt(db.orders[orderID], now)
      case Err(AcceptanceCancelled) =>
        || (a.id in db.acceptances && db.acceptances[a.id].cancelledAt != 0)
        || exists k :: k in db.cancellations && k == (a.id, a.acceptance.takerPublicKey) && Binds(db.cancellations[k].signed.cancellation, a)
      case Err(AlreadyAccepted) =>
        exists k :: k in db.acceptances && Waiting(db.acceptances[k], orderID, now) &&
                    db.acceptances[k].signed.acceptance.takerPublicKey == a.acceptance.takerPublicKey
      case Err(AcceptanceLimit) => |set k | k in db.acceptances && Waiting(db.acceptances[k], orderID, now)| >= 100
      case _ => true
  {
    hide AcceptanceVerified, CancellationVerified, Binds, Stored;
    assert Pending(db.acceptances, orderID, now) == set k | k in db.acceptances && Waiting(db.acceptances[k], orderID, now);
  }

  /** A cancellation of an acceptance is refused because the order stands on it, or because a thousand are stored. */
  lemma RevokeRefusal(c: Crypto, db: Db, orderID: string, id: string, x: SignedAcceptanceCancellation, now: int)
    ensures
      match Revoked(c, db, orderID, id, x, now)
      case Err(AcceptanceMatched) =>
        && orderID in db.orders && db.orders[orderID].status == Matched
        && db.orders[orderID].acceptance.Some? && db.orders[orderID].acceptance.value.id == id
      case Err(CancellationLimit) =>
        |set k | k in db.cancellations && db.cancellations[k].signed.cancellation.orderID == orderID| >= 1000
      case _ => true
  {
    hide CancellationVerified, Binds;
  }

  /** A match is refused because the order is not open or the acceptance was cancelled. */
  lemma MatchRefusal(c: Crypto, db: Db, orderID: string, m: SignedMatch, now: int)
    ensures
      match Confirmed(c, db, orderID, m, now)
      case Err(NotOpen) => orderID in db.orders && !OpenAt(db.orders[orderID], now)
      case Err(AcceptanceCancelled) =>
        var id := m.payload.acceptanceID;
        && id in db.acceptances
        && (|| db.acceptances[id].cancelledAt != 0
            || (db.acceptances[id].signed.id, db.acceptances[id].signed.acceptance.takerPublicKey) in db.cancellations)
      case _ => true
  {
    hide MatchVerified, AppendTo;
  }
}
