/** The relay's store: internal/relay/store.go and internal/relay/mailbox.go. Every operation is one
    transaction on the database: it commits all of its puts and deletes or, on an error, none. */
module Relay {
  import opened Basics
  import opened Records
  import opened Trade

  const MAX_OPEN_ORDERS_PER_MAKER := 100
  const MAX_PENDING_ACCEPTANCES_PER_ORDER := 100
  const MAX_ACCEPTANCE_CANCELLATIONS_PER_ORDER := 1000

  datatype Status = Open | Cancelled | Expired | Matched

  datatype OrderRecord = OrderRecord(
    signed: SignedOrder, status: Status, receivedAt: int, cancelledAt: int,
    cancellation: Option<SignedOrderCancellation>, matchedAt: int,
    acceptance: Option<SignedAcceptance>, matched: Option<SignedMatch>)

  datatype AcceptanceRecord = AcceptanceRecord(
    signed: SignedAcceptance, receivedAt: int, cancelledAt: int, cancellation: Option<SignedAcceptanceCancellation>)

  datatype CancellationRecord = CancellationRecord(
    signed: SignedAcceptanceCancellation, receivedAt: int, acceptanceKnown: bool)

  datatype Content =
    | AcceptanceItem(acceptance: AcceptanceRecord)
    | MatchItem(matched: SignedMatch)
    | MessageItem(message: SignedMessage)

  datatype MailboxItem = MailboxItem(cursor: nat, receivedAt: int, content: Content)

  /** A bucket with its own sequence counter; items stand in key order. */
  datatype Mailbox = Mailbox(sequence: nat, items: seq<MailboxItem>)

  const NO_MAIL := Mailbox(0, [])

  /** A trade and a sender: the unit messages are numbered in. */
  type Stream = (string, string)

  /** An acceptance ID and the taker's key. */
  type CancelKey = (string, string)

  datatype Db = Db(
    orders: map<string, OrderRecord>,
    acceptances: map<string, AcceptanceRecord>,
    cancellations: map<CancelKey, CancellationRecord>,
    messages: map<string, SignedMessage>,
    sequences: map<(Stream, nat), string>,
    heads: map<Stream, nat>,
    mailboxes: map<string, Mailbox>)

  const EMPTY := Db(map[], map[], map[], map[], map[], map[], map[])

  datatype RelayError =
    | NotFound | NotOpen | MakerLimit | AcceptanceLimit | AlreadyAccepted | AcceptanceCancelled | AcceptanceMatched
    | CancellationLimit | WrongSequence | Invalid

  // ----- reading

  function EffectiveStatus(r: OrderRecord, now: int): Status {
    if r.status == Open && r.signed.order.expiresAt <= now then Expired else r.status
  }

  function At(r: OrderRecord, now: int): OrderRecord {
    r.(status := EffectiveStatus(r, now))
  }

  function KeyOf(a: SignedAcceptance): CancelKey {
    (a.id, a.acceptance.takerPublicKey)
  }

  predicate IsPending(r: AcceptanceRecord, orderID: string, now: int) {
    r.signed.acceptance.orderID == orderID && r.signed.acceptance.expiresAt > now && r.cancelledAt == 0
  }

  function Pending(acceptances: map<string, AcceptanceRecord>, orderID: string, now: int): set<string> {
    set k | k in acceptances && IsPending(acceptances[k], orderID, now)
  }

  function CancelledFor(cancellations: map<CancelKey, CancellationRecord>, orderID: string): set<CancelKey> {
    set k | k in cancellations && cancellations[k].signed.cancellation.orderID == orderID
  }

  function OpenOf(orders: map<string, OrderRecord>, maker: string, now: int): set<string> {
    set k | k in orders && orders[k].signed.order.makerPublicKey == maker && EffectiveStatus(orders[k], now) == Open
  }

  function StreamOf(m: SignedMessage): Stream {
    (m.message.tradeID, m.message.senderPublicKey)
  }

  function Head(heads: map<Stream, nat>, s: Stream): nat {
    if s in heads then heads[s] else 0
  }

  function BoxOf(mailboxes: map<string, Mailbox>, owner: string): Mailbox {
    if owner in mailboxes then mailboxes[owner] else NO_MAIL
  }

  function AppendTo(mailboxes: map<string, Mailbox>, owner: string, receivedAt: int, content: Content): map<string, Mailbox> {
    var box := BoxOf(mailboxes, owner);
    mailboxes[owner := Mailbox(box.sequence + 1, box.items + [MailboxItem(box.sequence + 1, receivedAt, content)])]
  }

  // ----- what each operation commits

  function Published(c: Crypto, db: Db, signed: SignedOrder, now: int): Result<(Db, OrderRecord, bool), RelayError> {
    if !OrderVerified(c, signed, now) then Err(Invalid)
    else if signed.id in db.orders then Ok((db, At(db.orders[signed.id], now), false))
    else if |OpenOf(db.orders, signed.order.makerPublicKey, now)| >= MAX_OPEN_ORDERS_PER_MAKER then Err(MakerLimit)
    else
      var r := OrderRecord(signed, Open, now, 0, None, 0, None, None);
      Ok((db.(orders := db.orders[signed.id := r]), At(r, now), true))
  }

  function CancelledOrder(c: Crypto, db: Db, x: SignedOrderCancellation, now: int): Result<(Db, OrderRecord, bool), RelayError> {
    var id := x.cancellation.orderID;
    if !OrderCancellationVerified(c, x, now) then Err(Invalid)
    else if id !in db.orders then Err(NotFound)
    else
      var r := db.orders[id];
      if r.signed.order.makerPublicKey != x.cancellation.makerPublicKey then Err(Invalid)
      else if r.status == Cancelled then Ok((db, r, false))
      else if EffectiveStatus(r, now) != Open then Err(NotOpen)
      else
        var after := r.(status := Cancelled, cancelledAt := x.cancellation.createdAt, cancellation := Some(x));
        Ok((db.(orders := db.orders[id := after]), after, true))
  }

  function Submitted(c: Crypto, db: Db, orderID: string, a: SignedAcceptance, now: int)
    : Result<(Db, AcceptanceRecord, bool), RelayError>
  {
    if orderID !in db.orders then Err(NotFound)
    else if EffectiveStatus(db.orders[orderID], now) != Open then Err(NotOpen)
    else if !AcceptanceVerified(c, a, db.orders[orderID].signed, now) then Err(Invalid)
    else if a.id in db.acceptances then
      if db.acceptances[a.id].cancelledAt != 0 then Err(AcceptanceCancelled) else Ok((db, db.acceptances[a.id], false))
    else if Tombstoned(c, db.cancellations, a, now) then Err(AcceptanceCancelled)
    else
      var pending := Pending(db.acceptances, orderID, now);
      if exists k :: k in pending && db.acceptances[k].signed.acceptance.takerPublicKey == a.acceptance.takerPublicKey then
        Err(AlreadyAccepted)
      else if |pending| >= MAX_PENDING_ACCEPTANCES_PER_ORDER then Err(AcceptanceLimit)
      else
        var r := AcceptanceRecord(a, now, 0, None);
        Ok((Stored(db, db.orders[orderID].signed.order.makerPublicKey, r, now), r, true))
  }

  /** A cancellation stored earlier that binds this very acceptance. */
  predicate Tombstoned(c: Crypto, cancellations: map<CancelKey, CancellationRecord>, a: SignedAcceptance, now: int) {
    KeyOf(a) in cancellations && CancellationBinds(c, cancellations[KeyOf(a)].signed, a, now)
  }

  /** The puts of a submission; a cancellation under the same key that does not bind is dropped. */
  function Stored(db: Db, maker: string, r: AcceptanceRecord, now: int): Db {
    db.(cancellations := db.cancellations - {KeyOf(r.signed)},
        acceptances := db.acceptances[r.signed.id := r],
        mailboxes := AppendTo(db.mailboxes, maker, now, AcceptanceItem(r)))
  }

  function Revoked(c: Crypto, db: Db, orderID: string, acceptanceID: string, x: SignedAcceptanceCancellation, now: int)
    : Result<(Db, CancellationRecord, bool), RelayError>
  {
    var p := x.cancellation;
    var key := (acceptanceID, p.takerPublicKey);
    if !CancellationVerified(c, x, now) || p.orderID != orderID || p.acceptanceID != acceptanceID then Err(Invalid)
    else if orderID !in db.orders then Err(NotFound)
    else
      var r := db.orders[orderID];
      if p.network != r.signed.order.network || p.takerPublicKey == r.signed.order.makerPublicKey then Err(Invalid)
      else if r.status == Matched && r.acceptance.Some? && r.acceptance.value.id == acceptanceID then Err(AcceptanceMatched)
      else if key in db.cancellations then Ok((db, db.cancellations[key], false))
      else if |CancelledFor(db.cancellations, orderID)| >= MAX_ACCEPTANCE_CANCELLATIONS_PER_ORDER then Err(CancellationLimit)
      else if acceptanceID !in db.acceptances then
        var unknown := CancellationRecord(x, now, false);
        Ok((db.(cancellations := db.cancellations[key := unknown]), unknown, true))
      else if !CancellationBinds(c, x, db.acceptances[acceptanceID].signed, now) then Err(Invalid)
      else
        var known := CancellationRecord(x, now, true);
        var marked := db.acceptances[acceptanceID].(cancelledAt := now, cancellation := Some(x));
        Ok((db.(cancellations := db.cancellations[key := known], acceptances := db.acceptances[acceptanceID := marked]),
            known, true))
  }

  function Confirmed(c: Crypto, db: Db, orderID: string, m: SignedMatch, now: int): Result<(Db, OrderRecord, bool), RelayError> {
    if orderID !in db.orders then Err(NotFound)
    else
      var r := db.orders[orderID];
      if r.status == Matched && r.matched.Some? && r.matched.value.id == m.id then Ok((db, r, false))
      else if EffectiveStatus(r, now) != Open then Err(NotOpen)
      else if m.payload.acceptanceID !in db.acceptances then Err(Invalid)
      else
        var a := db.acceptances[m.payload.acceptanceID];
        if a.cancelledAt != 0 || KeyOf(a.signed) in db.cancellations then Err(AcceptanceCancelled)
        else if !MatchVerified(c, m, r.signed, a.signed, now) then Err(Invalid)
        else
          var after := r.(status := Matched, matchedAt := m.payload.createdAt, acceptance := Some(a.signed), matched := Some(m));
          Ok((db.(orders := db.orders[orderID := after],
                  mailboxes := AppendTo(db.mailboxes, a.signed.acceptance.takerPublicKey, now, MatchItem(m))),
              after, true))
  }

  predicate Between(m: MessagePayload, maker: string, taker: string) {
    || (m.senderPublicKey == maker && m.recipientPublicKey == taker)
    || (m.senderPublicKey == taker && m.recipientPublicKey == maker)
  }

  /** The trade a message belongs to is matched, and it runs between the two parties. */
  predicate Routed(r: OrderRecord, m: MessagePayload) {
    && r.status == Matched && r.acceptance.Some? && r.matched.Some?
    && m.network == r.signed.order.network && m.tradeID == r.matched.value.payload.tradeID
    && m.createdAt >= r.matchedAt
    && Between(m, r.signed.order.makerPublicKey, r.acceptance.value.acceptance.takerPublicKey)
  }

  function Sent(c: Crypto, db: Db, m: SignedMessage, now: int): Result<(Db, bool), RelayError> {
    var p := m.message;
    if !MessageVerified(c, m, now) then Err(Invalid)
    else if p.orderID !in db.orders then Err(NotFound)
    else if !Routed(db.orders[p.orderID], p) then Err(Invalid)
    else if m.id in db.messages then Ok((db, false))
    else if (StreamOf(m), p.sequence) in db.sequences then
      if db.sequences[(StreamOf(m), p.sequence)] == m.id then Ok((db, false)) else Err(WrongSequence)
    else if Head(db.heads, StreamOf(m)) == TWO_TO_64 - 1 || p.sequence != Head(db.heads, StreamOf(m)) + 1 then
      Err(WrongSequence)
    else
      Ok((Enqueued(db, m, now), true))
  }

  function Enqueued(db: Db, m: SignedMessage, now: int): Db {
    db.(messages := db.messages[m.id := m],
        sequences := db.sequences[(StreamOf(m), m.message.sequence) := m.id],
        heads := db.heads[StreamOf(m) := m.message.sequence],
        mailboxes := AppendTo(db.mailboxes, m.message.recipientPublicKey, now, MessageItem(m)))
  }

  // ----- polling

  /** The first item at or after a cursor: a bucket cursor's Seek. */
  function Seek(items: seq<MailboxItem>, target: nat, from: nat): (i: nat)
    requires from <= |items|
    ensures from <= i <= |items|
    ensures i < |items| ==> items[i].cursor >= target
    ensures forall k :: from <= k < i ==> items[k].cursor < target
    decreases |items| - from
  {
    if from == |items| || items[from].cursor >= target then from else Seek(items, target, from + 1)
  }

  datatype Page = Page(items: seq<MailboxItem>, next: nat, hasMore: bool)

  /** The page a poll returns: at most `limit` items from the first one past the cursor. */
  function PageOf(items: seq<MailboxItem>, after: nat, limit: nat): Page {
    var i := Seek(items, after + 1, 0);
    var end := if |items| - i <= limit then |items| else i + limit;
    Page(items[i..end], if i < end then items[end - 1].cursor else after, end < |items|)
  }

  // ----- the store

  /** Taking one element out of the part still to be counted. */
  lemma OneCounted<T>(target: set<T>, rest: set<T>, k: T)
    requires k in rest
    ensures |target * rest| == |target * (rest - {k})| + if k in target then 1 else 0
  {
    if k in target {
      assert target * rest == target * (rest - {k}) + {k};
    } else {
      assert target * rest == target * (rest - {k});
    }
  }

  class Store {
    const crypto: Crypto
    var db: Db

    constructor (crypto: Crypto)
      ensures this.crypto == crypto && db == EMPTY
    {
      this.crypto, this.db := crypto, EMPTY;
    }

    method Publish(signed: SignedOrder, now: int) returns (r: Result<(OrderRecord, bool), RelayError>)
      modifies this
      ensures match Published(crypto, old(db), signed, now)
              case Ok((after, record, created)) => db == after && r == Ok((record, created))
              case Err(e) => db == old(db) && r == Err(e)
    {
      if !OrderVerified(crypto, signed, now) {
        return Err(Invalid);
      }
      if signed.id in db.orders {
        return Ok((At(db.orders[signed.id], now), false));
      }
      var open := CountOpen(signed.order.makerPublicKey, now);
      if open >= MAX_OPEN_ORDERS_PER_MAKER {
        return Err(MakerLimit);
      }
      var record := OrderRecord(signed, Open, now, 0, None, 0, None, None);
      db := db.(orders := db.orders[signed.id := record]);
      return Ok((At(record, now), true));
    }

    method CountOpen(maker: string, now: int) returns (n: nat)
      ensures n == |OpenOf(db.orders, maker, now)|
    {
      n := 0;
      ghost var target := OpenOf(db.orders, maker, now);
      var rest := db.orders.Keys;
      assert target * rest == target;
      while rest != {}
        invariant rest <= db.orders.Keys && n + |target * rest| == |target|
        decreases rest
      {
        var k :| k in rest;
        OneCounted(target, rest, k);
        rest := rest - {k};
        if db.orders[k].signed.order.makerPublicKey == maker && EffectiveStatus(db.orders[k], now) == Open {
          n := n + 1;
        }
      }
    }

    method Cancel(x: SignedOrderCancellation, now: int) returns (r: Result<(OrderRecord, bool), RelayError>)
      modifies this
      ensures match CancelledOrder(crypto, old(db), x, now)
              case Ok((after, record, changed)) => db == after && r == Ok((record, changed))
              case Err(e) => db == old(db) && r == Err(e)
    {
      if !OrderCancellationVerified(crypto, x, now) {
        return Err(Invalid);
      }
      var id := x.cancellation.orderID;
      if id !in db.orders {
        return Err(NotFound);
      }
      var record := db.orders[id];
      if record.signed.order.makerPublicKey != x.cancellation.makerPublicKey {
        return Err(Invalid);
      }
      if record.status == Cancelled {
        return Ok((record, false));
      }
      if EffectiveStatus(record, now) != Open {
        return Err(NotOpen);
      }
      record := record.(status := Cancelled, cancelledAt := x.cancellation.createdAt, cancellation := Some(x));
      db := db.(orders := db.orders[id := record]);
      return Ok((record, true));
    }

    method SubmitAcceptance(orderID: string, a: SignedAcceptance, now: int)
      returns (r: Result<(AcceptanceRecord, bool), RelayError>)
      modifies this
      ensures match Submitted(crypto, old(db), orderID, a, now)
              case Ok((after, record, created)) => db == after && r == Ok((record, created))
              case Err(e) => db == old(db) && r == Err(e)
    {
      hide AcceptanceVerified, CancellationBinds;
      if orderID !in db.orders {
        return Err(NotFound);
      }
      var order := db.orders[orderID];
      if EffectiveStatus(order, now) != Open {
        return Err(NotOpen);
      }
      if !AcceptanceVerified(crypto, a, order.signed, now) {
        return Err(Invalid);
      }
      if a.id in db.acceptances {
        var existing := db.acceptances[a.id];
        return if existing.cancelledAt != 0 then Err(AcceptanceCancelled) else Ok((existing, false));
      }
      var tx := db;
      if KeyOf(a) in tx.cancellations {
        if CancellationBinds(crypto, tx.cancellations[KeyOf(a)].signed, a, now) {
          return Err(AcceptanceCancelled);
        }
      }
      tx := tx.(cancellations := tx.cancellations - {KeyOf(a)});
      var pending, again := CountPending(orderID, a.acceptance.takerPublicKey, now);
      if again {
        return Err(AlreadyAccepted);
      }
      if pending >= MAX_PENDING_ACCEPTANCES_PER_ORDER {
        return Err(AcceptanceLimit);
      }
      var record := AcceptanceRecord(a, now, 0, None);
      tx := tx.(acceptances := tx.acceptances[a.id := record]);
      tx := tx.(mailboxes := AppendTo(tx.mailboxes, order.signed.order.makerPublicKey, now, AcceptanceItem(record)));
      db := tx;
      return Ok((record, true));
    }

    /** The scan of a submission: it stops at a pending acceptance of the same taker. */
    method CountPending(orderID: string, taker: string, now: int) returns (n: nat, again: bool)
      ensures again <==> exists k :: k in Pending(db.acceptances, orderID, now) &&
                                     db.acceptances[k].signed.acceptance.takerPublicKey == taker
      ensures !again ==> n == |Pending(db.acceptances, orderID, now)|
    {
      n, again := 0, false;
      ghost var target := Pending(db.acceptances, orderID, now);
      var rest := db.acceptances.Keys;
      assert target * rest == target;
      while rest != {}
        invariant rest <= db.acceptances.Keys && n + |target * rest| == |target|
        invariant forall k :: k in target - rest ==> db.acceptances[k].signed.acceptance.takerPublicKey != taker
        decreases rest
      {
        var k :| k in rest;
        OneCounted(target, rest, k);
        rest := rest - {k};
        if IsPending(db.acceptances[k], orderID, now) {
          if db.acceptances[k].signed.acceptance.takerPublicKey == taker {
            return n, true;
          }
          n := n + 1;
        }
      }
    }

    method CancelAcceptance(orderID: string, acceptanceID: string, x: SignedAcceptanceCancellation, now: int)
      returns (r: Result<(CancellationRecord, bool), RelayError>)
      modifies this
      ensures match Revoked(crypto, old(db), orderID, acceptanceID, x, now)
              case Ok((after, record, created)) => db == after && r == Ok((record, created))
              case Err(e) => db == old(db) && r == Err(e)
    {
      hide CancellationVerified, Binds;
      var p := x.cancellation;
      if !CancellationVerified(crypto, x, now) || p.orderID != orderID || p.acceptanceID != acceptanceID {
        return Err(Invalid);
      }
      if orderID !in db.orders {
        return Err(NotFound);
      }
      var order := db.orders[orderID];
      if p.network != order.signed.order.network || p.takerPublicKey == order.signed.order.makerPublicKey {
        return Err(Invalid);
      }
      if order.status == Matched && order.acceptance.Some? && order.acceptance.value.id == acceptanceID {
        return Err(AcceptanceMatched);
      }
      var key := (acceptanceID, p.takerPublicKey);
      if key in db.cancellations {
        return Ok((db.cancellations[key], false));
      }
      var count := CountCancellations(orderID);
      if count >= MAX_ACCEPTANCE_CANCELLATIONS_PER_ORDER {
        return Err(CancellationLimit);
      }
      var known := acceptanceID in db.acceptances;
      if known && !CancellationBinds(crypto, x, db.acceptances[acceptanceID].signed, now) {
        return Err(Invalid);
      }
      var tx := db;
      var record := CancellationRecord(x, now, known);
      tx := tx.(cancellations := tx.cancellations[key := record]);
      if known {
        var marked := tx.acceptances[acceptanceID].(cancelledAt := now, cancellation := Some(x));
        tx := tx.(acceptances := tx.acceptances[acceptanceID := marked]);
      }
      db := tx;
      return Ok((record, true));
    }

    method CountCancellations(orderID: string) returns (n: nat)
      ensures n == |CancelledFor(db.cancellations, orderID)|
    {
      n := 0;
      ghost var target := CancelledFor(db.cancellations, orderID);
      var rest := db.cancellations.Keys;
      assert target * rest == target;
      while rest != {}
        invariant rest <= db.cancellations.Keys && n + |target * rest| == |target|
        decreases rest
      {
        var k :| k in rest;
        OneCounted(target, rest, k);
        rest := rest - {k};
        if db.cancellations[k].signed.cancellation.orderID == orderID {
          n := n + 1;
        }
      }
    }

    method ConfirmMatch(orderID: string, m: SignedMatch, now: int) returns (r: Result<(OrderRecord, bool), RelayError>)
      modifies this
      ensures match Confirmed(crypto, old(db), orderID, m, now)
              case Ok((after, record, changed)) => db == after && r == Ok((record, changed))
              case Err(e) => db == old(db) && r == Err(e)
    {
      hide MatchVerified;
      if orderID !in db.orders {
        return Err(NotFound);
      }
      var order := db.orders[orderID];
      if order.status == Matched && order.matched.Some? && order.matched.value.id == m.id {
        return Ok((order, false));
      }
      if EffectiveStatus(order, now) != Open {
        return Err(NotOpen);
      }
      if m.payload.acceptanceID !in db.acceptances {
        return Err(Invalid);
      }
      var a := db.acceptances[m.payload.acceptanceID];
      if a.cancelledAt != 0 {
        return Err(AcceptanceCancelled);
      }
      if KeyOf(a.signed) in db.cancellations {
        return Err(AcceptanceCancelled);
      }
      if !MatchVerified(crypto, m, order.signed, a.signed, now) {
        return Err(Invalid);
      }
      order := order.(status := Matched, matchedAt := m.payload.createdAt, acceptance := Some(a.signed), matched := Some(m));
      var tx := db.(orders := db.orders[orderID := order]);
      tx := tx.(mailboxes := AppendTo(tx.mailboxes, a.signed.acceptance.takerPublicKey, now, MatchItem(m)));
      db := tx;
      return Ok((order, true));
    }

    method PublishMessage(m: SignedMessage, now: int) returns (r: Result<bool, RelayError>)
      modifies this
      ensures match Sent(crypto, old(db), m, now)
              case Ok((after, created)) => db == after && r == Ok(created)
              case Err(e) => db == old(db) && r == Err(e)
    {
      hide MessageVerified, Routed;
      var p := m.message;
      if !MessageVerified(crypto, m, now) {
        return Err(Invalid);
      }
      if p.orderID !in db.orders {
        return Err(NotFound);
      }
      if !Routed(db.orders[p.orderID], p) {
        return Err(Invalid);
      }
      if m.id in db.messages {
        return Ok(false);
      }
      var key := (StreamOf(m), p.sequence);
      if key in db.sequences {
        return if db.sequences[key] == m.id then Ok(false) else Err(WrongSequence);
      }
      var current := Head(db.heads, StreamOf(m));
      if current == TWO_TO_64 - 1 || p.sequence != current + 1 {
        return Err(WrongSequence);
      }
      var tx := db.(messages := db.messages[m.id := m]);
      tx := tx.(sequences := tx.sequences[key := m.id]);
      tx := tx.(heads := tx.heads[StreamOf(m) := p.sequence]);
      tx := tx.(mailboxes := AppendTo(tx.mailboxes, p.recipientPublicKey, now, MessageItem(m)));
      db := tx;
      return Ok(true);
    }

    /** PollMailbox, after the poll's own signature check */
    method PollMailbox(owner: string, after: uint64, limit: uint16) returns (page: Page)
      ensures after < TWO_TO_64 - 1 ==> page == PageOf(BoxOf(db.mailboxes, owner).items, after, limit)
      ensures after == TWO_TO_64 - 1 ==> page == Page([], after, false)
    {
      page := Page([], after, false);
      if owner !in db.mailboxes || after == TWO_TO_64 - 1 {
        return;
      }
      var items := db.mailboxes[owner].items;
      var start := Seek(items, after + 1, 0);
      var i := start;
      while i < |items| && |page.items| < limit
        invariant start <= i <= |items| && page.items == items[start..i] && i - start <= limit
        invariant page.next == if start < i then items[i - 1].cursor else after
      {
        page := page.(items := page.items + [items[i]], next := items[i].cursor);
        i := i + 1;
      }
      page := page.(hasMore := i < |items|);
    }
  }
}
