/** The relay's quotas, in every reachable state and for as long as nothing else arrives. */
module RelayLimits {
  import opened Basics
  import opened Records
  import opened Trade
  import opened Relay
  import opened RelaySafety

  ghost predicate MakersLimited(orders: map<string, OrderRecord>, now: int) {
    forall maker :: |OpenOf(orders, maker, now)| <= MAX_OPEN_ORDERS_PER_MAKER
  }

  ghost predicate PendingLimited(acceptances: map<string, AcceptanceRecord>, now: int) {
    forall orderID :: |Pending(acceptances, orderID, now)| <= MAX_PENDING_ACCEPTANCES_PER_ORDER
  }

  ghost predicate CancellationsLimited(cancellations: map<CancelKey, CancellationRecord>) {
    forall orderID :: |CancelledFor(cancellations, orderID)| <= MAX_ACCEPTANCE_CANCELLATIONS_PER_ORDER
  }

  /** A taker has at most one pending acceptance per order. */
  ghost predicate OnePendingPerTaker(acceptances: map<string, AcceptanceRecord>, now: int) {
    forall orderID, j, k :: j in Pending(acceptances, orderID, now) && k in Pending(acceptances, orderID, now) ==>
      (acceptances[j].signed.acceptance.takerPublicKey == acceptances[k].signed.acceptance.takerPublicKey ==> j == k)
  }

  ghost predicate Limited(db: Db, now: int) {
    && MakersLimited(db.orders, now) && PendingLimited(db.acceptances, now)
    && CancellationsLimited(db.cancellations) && OnePendingPerTaker(db.acceptances, now)
  }

  lemma SubsetSmaller<T>(a: set<T>, b: set<T>)
    requires a <= b
    ensures |a| <= |b|
  {
    if x :| x in b && x !in a {
      SubsetSmaller(a, b - {x});
    } else {
      assert a == b;
    }
  }

  lemma OneMore<T>(a: set<T>, b: set<T>, x: T)
    requires a <= b + {x}
    ensures |a| <= |b| + 1
  {
    SubsetSmaller(a, b + {x});
  }

  /** Waiting only closes orders and acceptances. */
  lemma LimitedLater(db: Db, then_: int, now: int)
    requires Limited(db, then_) && then_ <= now
    ensures Limited(db, now)
  {
    forall maker ensures |OpenOf(db.orders, maker, now)| <= MAX_OPEN_ORDERS_PER_MAKER {
      SubsetSmaller(OpenOf(db.orders, maker, now), OpenOf(db.orders, maker, then_));
    }
    forall orderID ensures Pending(db.acceptances, orderID, now) <= Pending(db.acceptances, orderID, then_) {
    }
    forall orderID ensures |Pending(db.acceptances, orderID, now)| <= MAX_PENDING_ACCEPTANCES_PER_ORDER {
      SubsetSmaller(Pending(db.acceptances, orderID, now), Pending(db.acceptances, orderID, then_));
    }
  }

  lemma NewOrderLimited(orders: map<string, OrderRecord>, id: string, r: OrderRecord, now: int)
    requires MakersLimited(orders, now) && id !in orders
    requires |OpenOf(orders, r.signed.order.makerPublicKey, now)| < MAX_OPEN_ORDERS_PER_MAKER
    ensures MakersLimited(orders[id := r], now)
  {
    var after := orders[id := r];
    forall maker ensures |OpenOf(after, maker, now)| <= MAX_OPEN_ORDERS_PER_MAKER {
      if maker == r.signed.order.makerPublicKey {
        OneMore(OpenOf(after, maker, now), OpenOf(orders, maker, now), id);
      } else {
        SubsetSmaller(OpenOf(after, maker, now), OpenOf(orders, maker, now));
      }
    }
  }

  lemma ClosedOrderLimited(orders: map<string, OrderRecord>, id: string, r: OrderRecord, now: int)
    requires MakersLimited(orders, now) && id in orders && r.status != Open
    ensures MakersLimited(orders[id := r], now)
  {
    var after := orders[id := r];
    forall maker ensures |OpenOf(after, maker, now)| <= MAX_OPEN_ORDERS_PER_MAKER {
      SubsetSmaller(OpenOf(after, maker, now), OpenOf(orders, maker, now));
    }
  }

  lemma NewPendingLimited(acceptances: map<string, AcceptanceRecord>, orderID: string, r: AcceptanceRecord, now: int)
    requires PendingLimited(acceptances, now) && r.signed.id !in acceptances && r.signed.acceptance.orderID == orderID
    requires |Pending(acceptances, orderID, now)| < MAX_PENDING_ACCEPTANCES_PER_ORDER
    ensures PendingLimited(acceptances[r.signed.id := r], now)
  {
    var after := acceptances[r.signed.id := r];
    forall o ensures |Pending(after, o, now)| <= MAX_PENDING_ACCEPTANCES_PER_ORDER {
      if o == orderID {
        OneMore(Pending(after, o, now), Pending(acceptances, o, now), r.signed.id);
      } else {
        SubsetSmaller(Pending(after, o, now), Pending(acceptances, o, now));
      }
    }
  }

  lemma NewPendingUnique(acceptances: map<string, AcceptanceRecord>, orderID: string, r: AcceptanceRecord, now: int)
    requires OnePendingPerTaker(acceptances, now) && r.signed.id !in acceptances
    requires r.signed.acceptance.orderID == orderID
    requires forall k :: k in Pending(acceptances, orderID, now) ==>
               acceptances[k].signed.acceptance.takerPublicKey != r.signed.acceptance.takerPublicKey
    ensures OnePendingPerTaker(acceptances[r.signed.id := r], now)
  {
    var after := acceptances[r.signed.id := r];
    forall o, j, k | j in Pending(after, o, now) && k in Pending(after, o, now) &&
        after[j].signed.acceptance.takerPublicKey == after[k].signed.acceptance.takerPublicKey
      ensures j == k
    {
      assert j == r.signed.id || j in Pending(acceptances, o, now);
      assert k == r.signed.id || k in Pending(acceptances, o, now);
    }
  }

  lemma MarkedPendingLimited(acceptances: map<string, AcceptanceRecord>, id: string, r: AcceptanceRecord, now: int)
    requires PendingLimited(acceptances, now) && OnePendingPerTaker(acceptances, now) && id in acceptances
    requires r.cancelledAt != 0
    ensures PendingLimited(acceptances[id := r], now) && OnePendingPerTaker(acceptances[id := r], now)
  {
    var after := acceptances[id := r];
    forall o ensures Pending(after, o, now) <= Pending(acceptances, o, now) {
    }
    forall o ensures |Pending(after, o, now)| <= MAX_PENDING_ACCEPTANCES_PER_ORDER {
      SubsetSmaller(Pending(after, o, now), Pending(acceptances, o, now));
    }
  }

  lemma NewCancellationLimited(cancellations: map<CancelKey, CancellationRecord>, key: CancelKey, r: CancellationRecord)
    requires CancellationsLimited(cancellations) && key !in cancellations
    requires |CancelledFor(cancellations, r.signed.cancellation.orderID)| < MAX_ACCEPTANCE_CANCELLATIONS_PER_ORDER
    ensures CancellationsLimited(cancellations[key := r])
  {
    var after := cancellations[key := r];
    forall o ensures |CancelledFor(after, o)| <= MAX_ACCEPTANCE_CANCELLATIONS_PER_ORDER {
      if o == r.signed.cancellation.orderID {
        OneMore(CancelledFor(after, o), CancelledFor(cancellations, o), key);
      } else {
        SubsetSmaller(CancelledFor(after, o), CancelledFor(cancellations, o));
      }
    }
  }

  lemma DroppedCancellationLimited(cancellations: map<CancelKey, CancellationRecord>, key: CancelKey)
    requires CancellationsLimited(cancellations)
    ensures CancellationsLimited(cancellations - {key})
  {
    var after := cancellations - {key};
    forall o ensures |CancelledFor(after, o)| <= MAX_ACCEPTANCE_CANCELLATIONS_PER_ORDER {
      SubsetSmaller(CancelledFor(after, o), CancelledFor(cancellations, o));
    }
  }

  // ----- every operation

  lemma StepLimited(c: Crypto, db: Db, op: Op, now: int)
    requires Limited(db, now) && OrdersKeyed(db.orders) && now > 0
    ensures Limited(After(c, db, op, now), now)
  {
    hide Limited, After, OrdersKeyed;
    match op {
      case PublishOrder(s) => PublishLimited(c, db, s, now);
      case CancelOrder(x) => CancelOrderLimited(c, db, x, now);
      case Submit(o, a) => SubmitLimited(c, db, o, a, now);
      case Cancel(o, id, x) => CancelLimited(c, db, o, id, x, now);
      case Match(o, m) => MatchLimited(c, db, o, m, now);
      case Message(m) => MessageLimited(c, db, m, now);
    }
  }

  lemma PublishLimited(c: Crypto, db: Db, s: SignedOrder, now: int)
    requires Limited(db, now)
    ensures Limited(After(c, db, PublishOrder(s), now), now)
  {
    hide OrderVerified, OpenOf, MakersLimited, PendingLimited, CancellationsLimited, OnePendingPerTaker;
    var r := Published(c, db, s, now);
    if r.Ok? && r.value.2 {
      NewOrderLimited(db.orders, s.id, OrderRecord(s, Open, now, 0, None, 0, None, None), now);
    }
  }

  lemma CancelOrderLimited(c: Crypto, db: Db, x: SignedOrderCancellation, now: int)
    requires Limited(db, now)
    ensures Limited(After(c, db, CancelOrder(x), now), now)
  {
    hide OrderCancellationVerified, MakersLimited, PendingLimited, CancellationsLimited, OnePendingPerTaker;
    var r := CancelledOrder(c, db, x, now);
    if r.Ok? && r.value.2 {
      ClosedOrderLimited(db.orders, x.cancellation.orderID, r.value.1, now);
    }
  }

  lemma SubmitLimited(c: Crypto, db: Db, orderID: string, a: SignedAcceptance, now: int)
    requires Limited(db, now) && OrdersKeyed(db.orders)
    ensures Limited(After(c, db, Submit(orderID, a), now), now)
  {
    hide Tombstoned, AppendTo, MakersLimited, PendingLimited, CancellationsLimited, OnePendingPerTaker,
      AcceptanceVerified;
    var r := Submitted(c, db, orderID, a, now);
    if r.Ok? && r.value.2 {
      AcceptanceNamesOrder(c, a, db.orders[orderID].signed, now);
      KeyedByID(c, db, orderID, a, now);
      DroppedCancellationLimited(db.cancellations, KeyOf(a));
    }
  }

  lemma AcceptanceNamesOrder(c: Crypto, a: SignedAcceptance, s: SignedOrder, now: int)
    requires AcceptanceVerified(c, a, s, now)
    ensures a.acceptance.orderID == s.id
  {
  }

  lemma KeyedByID(c: Crypto, db: Db, orderID: string, a: SignedAcceptance, now: int)
    requires PendingLimited(db.acceptances, now) && OnePendingPerTaker(db.acceptances, now)
    requires Submitted(c, db, orderID, a, now).Ok? && Submitted(c, db, orderID, a, now).value.2
    requires a.acceptance.orderID == orderID
    ensures PendingLimited(db.acceptances[a.id := AcceptanceRecord(a, now, 0, None)], now)
    ensures OnePendingPerTaker(db.acceptances[a.id := AcceptanceRecord(a, now, 0, None)], now)
  {
    hide Tombstoned, AppendTo, PendingLimited, OnePendingPerTaker, AcceptanceVerified, Pending;
    NewPendingLimited(db.acceptances, orderID, AcceptanceRecord(a, now, 0, None), now);
    NewPendingUnique(db.acceptances, orderID, AcceptanceRecord(a, now, 0, None), now);
  }

  lemma CancelLimited(c: Crypto, db: Db, orderID: string, id: string, x: SignedAcceptanceCancellation, now: int)
    requires Limited(db, now) && now > 0
    ensures Limited(After(c, db, Cancel(orderID, id, x), now), now)
  {
    hide CancellationVerified, Binds, CancelledFor, MakersLimited, PendingLimited, CancellationsLimited,
      OnePendingPerTaker;
    var r := Revoked(c, db, orderID, id, x, now);
    if r.Ok? && r.value.2 {
      NewCancellationLimited(db.cancellations, (id, x.cancellation.takerPublicKey), r.value.1);
      if id in db.acceptances {
        MarkedPendingLimited(db.acceptances, id, db.acceptances[id].(cancelledAt := now, cancellation := Some(x)), now);
      }
    }
  }

  lemma MatchLimited(c: Crypto, db: Db, orderID: string, m: SignedMatch, now: int)
    requires Limited(db, now)
    ensures Limited(After(c, db, Match(orderID, m), now), now)
  {
    hide MatchVerified, AppendTo, MakersLimited, PendingLimited, CancellationsLimited, OnePendingPerTaker;
    var r := Confirmed(c, db, orderID, m, now);
    if r.Ok? && r.value.2 {
      ClosedOrderLimited(db.orders, orderID, r.value.1, now);
    }
  }

  lemma MessageLimited(c: Crypto, db: Db, m: SignedMessage, now: int)
    requires Limited(db, now)
    ensures Limited(After(c, db, Message(m), now), now)
  {
    hide MakersLimited, PendingLimited, CancellationsLimited, OnePendingPerTaker, MessageVerified, Routed, AppendTo;
  }

  lemma {:induction false} AlwaysLimited(c: Crypto, ops: seq<(Op, int)>)
    requires ClockRuns(ops)
    ensures Limited(Run(c, ops), Clock(ops))
  {
    if |ops| > 0 {
      hide Limited, After, CancelledExactly, MatchedStanding, AcceptancesKeyed, CancellationsKeyed, OrdersKeyed;
      var front, op, now := ops[..|ops| - 1], ops[|ops| - 1].0, ops[|ops| - 1].1;
      AlwaysLimited(c, front);
      AlwaysConsistent(c, front);
      LimitedLater(Run(c, front), Clock(front), now);
      StepLimited(c, Run(c, front), op, now);
    } else {
      EmptyLimited();
    }
  }

  lemma EmptyLimited()
    ensures Limited(EMPTY, 0)
  {
    assert forall maker :: OpenOf(map[], maker, 0) == {};
    assert forall orderID :: Pending(map[], orderID, 0) == {};
    assert forall orderID :: CancelledFor(map[], orderID) == {};
  }

  /** At any time not before the last operation: quotas hold, so an open listing of one maker fits one
      page of a hundred, and no taker holds two pending acceptances of one order. */
  lemma QuotasHold(c: Crypto, ops: seq<(Op, int)>, now: int)
    requires ClockRuns(ops) && Clock(ops) <= now
    ensures forall maker :: |OpenOf(Run(c, ops).orders, maker, now)| <= 100
    ensures forall orderID :: |Pending(Run(c, ops).acceptances, orderID, now)| <= 100
    ensures forall orderID :: |CancelledFor(Run(c, ops).cancellations, orderID)| <= 1000
    ensures OnePendingPerTaker(Run(c, ops).acceptances, now)
  {
    hide OpenOf, Pending, CancelledFor, OnePendingPerTaker, Run;
    AlwaysLimited(c, ops);
    LimitedLater(Run(c, ops), Clock(ops), now);
  }
}
