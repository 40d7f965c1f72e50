/** What holds of the relay in every reachable state, whatever operations arrive in whatever order, on a
    clock that is positive and never moves back. */
module RelaySafety {
  import opened Basics
  import opened Records
  import opened Encoding
  import opened Trade
  import opened Relay

  datatype Op =
    | PublishOrder(order: SignedOrder)
    | CancelOrder(orderCancellation: SignedOrderCancellation)
    | Submit(orderID: string, acceptance: SignedAcceptance)
    | Cancel(orderID: string, acceptanceID: string, cancellation: SignedAcceptanceCancellation)
    | Match(orderID: string, matched: SignedMatch)
    | Message(message: SignedMessage)

  /** The database after an operation; a failed one leaves it alone. */
  function After(c: Crypto, db: Db, op: Op, now: int): Db {
    match op
    case PublishOrder(s) => (match Published(c, db, s, now) case Ok(r) => r.0 case Err(_) => db)
    case CancelOrder(x) => (match CancelledOrder(c, db, x, now) case Ok(r) => r.0 case Err(_) => db)
    case Submit(o, a) => (match Submitted(c, db, o, a, now) case Ok(r) => r.0 case Err(_) => db)
    case Cancel(o, id, x) => (match Revoked(c, db, o, id, x, now) case Ok(r) => r.0 case Err(_) => db)
    case Match(o, m) => (match Confirmed(c, db, o, m, now) case Ok(r) => r.0 case Err(_) => db)
    case Message(m) => (match Sent(c, db, m, now) case Ok(r) => r.0 case Err(_) => db)
  }

  function Run(c: Crypto, ops: seq<(Op, int)>): Db {
    if |ops| == 0 then EMPTY
    else After(c, Run(c, ops[..|ops| - 1]), ops[|ops| - 1].0, ops[|ops| - 1].1)
  }

  predicate ClockRuns(ops: seq<(Op, int)>) {
    && (forall i :: 0 <= i < |ops| ==> ops[i].1 > 0)
    && (forall i, j :: 0 <= i < j < |ops| ==> ops[i].1 <= ops[j].1)
  }

  function Clock(ops: seq<(Op, int)>): int {
    if |ops| == 0 then 0 else ops[|ops| - 1].1
  }

  // ----- acceptances, cancellations and matches

  ghost predicate WasVerified(c: Crypto, a: SignedAcceptance) {
    exists s: SignedOrder, t: int :: AcceptanceVerified(c, a, s, t)
  }

  predicate OrdersKeyed(orders: map<string, OrderRecord>) {
    forall k :: k in orders ==> orders[k].signed.id == k
  }

  ghost predicate AcceptancesKeyed(c: Crypto, acceptances: map<string, AcceptanceRecord>) {
    forall k :: k in acceptances ==> acceptances[k].signed.id == k && WasVerified(c, acceptances[k].signed)
  }

  predicate CancellationsKeyed(c: Crypto, cancellations: map<CancelKey, CancellationRecord>, now: int) {
    forall k :: k in cancellations ==>
      && cancellations[k].signed.cancellation.acceptanceID == k.0
      && cancellations[k].signed.cancellation.takerPublicKey == k.1
      && CancellationVerified(c, cancellations[k].signed, now)
  }

  /** A stored acceptance is marked cancelled exactly when a cancellation stands under its key. */
  predicate CancelledExactly(acceptances: map<string, AcceptanceRecord>,
                             cancellations: map<CancelKey, CancellationRecord>) {
    forall k :: k in acceptances ==>
      && (acceptances[k].cancelledAt != 0 <==> KeyOf(acceptances[k].signed) in cancellations)
      && (acceptances[k].cancelledAt != 0 ==> BoundBy(acceptances[k], cancellations[KeyOf(acceptances[k].signed)]))
  }

  predicate BoundBy(a: AcceptanceRecord, x: CancellationRecord) {
    a.cancellation == Some(x.signed) && Binds(x.signed.cancellation, a.signed)
  }

  /** A matched order stands on a stored acceptance of that order that is not cancelled. */
  predicate MatchedStanding(orders: map<string, OrderRecord>, acceptances: map<string, AcceptanceRecord>) {
    forall k :: k in orders && orders[k].status == Matched ==> Stands(k, orders[k], acceptances)
  }

  predicate Stands(orderID: string, r: OrderRecord, acceptances: map<string, AcceptanceRecord>) {
    && r.acceptance.Some? && r.matched.Some?
    && var a := r.acceptance.value;
       a.id in acceptances && acceptances[a.id].signed == a && acceptances[a.id].cancelledAt == 0
       && a.acceptance.orderID == orderID
  }

  ghost predicate Consistent(c: Crypto, db: Db, now: int) {
    && OrdersKeyed(db.orders) && AcceptancesKeyed(c, db.acceptances) && CancellationsKeyed(c, db.cancellations, now)
    && CancelledExactly(db.acceptances, db.cancellations) && MatchedStanding(db.orders, db.acceptances)
  }

  /** A verified cancellation stays verified: its time bound only loosens. */
  lemma CancellationsAge(c: Crypto, cancellations: map<CancelKey, CancellationRecord>, then_: int, now: int)
    requires CancellationsKeyed(c, cancellations, then_) && then_ <= now
    ensures CancellationsKeyed(c, cancellations, now)
  {
  }

  lemma PublishConsistent(c: Crypto, db: Db, op: Op, now: int)
    requires Consistent(c, db, now) && op.PublishOrder?
    ensures Consistent(c, After(c, db, op, now), now)
  {
    hide OrderVerified, OpenOf, AcceptancesKeyed, CancellationsKeyed, CancelledExactly, Stands;
  }

  lemma CancelOrderConsistent(c: Crypto, db: Db, op: Op, now: int)
    requires Consistent(c, db, now) && op.CancelOrder?
    ensures Consistent(c, After(c, db, op, now), now)
  {
    hide OrderCancellationVerified, AcceptancesKeyed, CancellationsKeyed, CancelledExactly, Stands;
  }

  lemma SubmitConsistent(c: Crypto, db: Db, op: Op, now: int)
    requires Consistent(c, db, now) && op.Submit?
    ensures Consistent(c, After(c, db, op, now), now)
  {
    hide AcceptanceVerified, Tombstoned, Pending, AppendTo;
    hide OrdersKeyed, AcceptancesKeyed, CancellationsKeyed, CancelledExactly, MatchedStanding;
    var r := Submitted(c, db, op.orderID, op.acceptance, now);
    if r.Ok? && r.value.2 {
      assert AcceptanceVerified(c, op.acceptance, db.orders[op.orderID].signed, now);
      NewAcceptanceKeyed(c, db.acceptances, r.value.1, db.orders[op.orderID].signed, now);
      AcceptanceIDs(c, db.acceptances);
      NewAcceptanceStands(db, r.value.1);
      DroppedKeyed(c, db.cancellations, KeyOf(op.acceptance), now);
    }
  }

  lemma NewAcceptanceKeyed(c: Crypto, acceptances: map<string, AcceptanceRecord>, r: AcceptanceRecord,
                           s: SignedOrder, now: int)
    requires AcceptancesKeyed(c, acceptances) && AcceptanceVerified(c, r.signed, s, now)
    ensures AcceptancesKeyed(c, acceptances[r.signed.id := r])
  {
    hide AcceptanceVerified;
  }

  lemma NewAcceptanceStands(db: Db, r: AcceptanceRecord)
    requires CancelledExactly(db.acceptances, db.cancellations) && MatchedStanding(db.orders, db.acceptances)
    requires r.signed.id !in db.acceptances && r.cancelledAt == 0
    requires forall k :: k in db.acceptances ==> db.acceptances[k].signed.id == k
    ensures CancelledExactly(db.acceptances[r.signed.id := r], db.cancellations - {KeyOf(r.signed)})
    ensures MatchedStanding(db.orders, db.acceptances[r.signed.id := r])
  {
    hide BoundBy;
  }

  lemma DroppedKeyed(c: Crypto, cancellations: map<CancelKey, CancellationRecord>, k: CancelKey, now: int)
    requires CancellationsKeyed(c, cancellations, now)
    ensures CancellationsKeyed(c, cancellations - {k}, now)
  {
    hide CancellationVerified;
  }

  lemma CancelConsistent(c: Crypto, db: Db, op: Op, now: int)
    requires Consistent(c, db, now) && op.Cancel? && now > 0
    ensures Consistent(c, After(c, db, op, now), now)
  {
    hide CancelledFor, CancellationVerified, Binds;
    hide OrdersKeyed, AcceptancesKeyed, CancellationsKeyed, CancelledExactly, MatchedStanding;
    var r := Revoked(c, db, op.orderID, op.acceptanceID, op.cancellation, now);
    if r.Ok? && r.value.2 {
      var key := (op.acceptanceID, op.cancellation.cancellation.takerPublicKey);
      NewCancellationKeyed(c, db.cancellations, key, r.value.1, now);
      if op.acceptanceID in db.acceptances {
        Marked(c, db, op.orderID, op.acceptanceID, r.value.1, now);
      } else {
        AcceptanceIDs(c, db.acceptances);
        Unmarked(db, key, r.value.1);
      }
    }
  }

  lemma NewCancellationKeyed(c: Crypto, cancellations: map<CancelKey, CancellationRecord>, k: CancelKey,
                             r: CancellationRecord, now: int)
    requires CancellationsKeyed(c, cancellations, now) && CancellationVerified(c, r.signed, now)
    requires k == (r.signed.cancellation.acceptanceID, r.signed.cancellation.takerPublicKey)
    ensures CancellationsKeyed(c, cancellations[k := r], now)
  {
    hide CancellationVerified;
  }

  lemma AcceptanceIDs(c: Crypto, acceptances: map<string, AcceptanceRecord>)
    requires AcceptancesKeyed(c, acceptances)
    ensures forall k :: k in acceptances ==> acceptances[k].signed.id == k
  {
  }

  /** A cancellation of an unknown acceptance marks nothing. */
  lemma Unmarked(db: Db, key: CancelKey, r: CancellationRecord)
    requires CancelledExactly(db.acceptances, db.cancellations) && key.0 !in db.acceptances
    requires forall k :: k in db.acceptances ==> db.acceptances[k].signed.id == k
    ensures CancelledExactly(db.acceptances, db.cancellations[key := r])
  {
    hide BoundBy;
  }

  /** A cancellation of a known acceptance marks exactly that one, and no order stands on it. */
  lemma Marked(c: Crypto, db: Db, orderID: string, id: string, r: CancellationRecord, now: int)
    requires OrdersKeyed(db.orders) && AcceptancesKeyed(c, db.acceptances)
    requires CancelledExactly(db.acceptances, db.cancellations) && MatchedStanding(db.orders, db.acceptances)
    requires orderID in db.orders && id in db.acceptances && now > 0
    requires Binds(r.signed.cancellation, db.acceptances[id].signed) && r.signed.cancellation.orderID == orderID
    requires !(db.orders[orderID].status == Matched && db.orders[orderID].acceptance.Some? &&
               db.orders[orderID].acceptance.value.id == id)
    ensures
      var marked := db.acceptances[id := db.acceptances[id].(cancelledAt := now, cancellation := Some(r.signed))];
      && AcceptancesKeyed(c, marked) && MatchedStanding(db.orders, marked)
      && CancelledExactly(marked, db.cancellations[(id, r.signed.cancellation.takerPublicKey) := r])
  {
    hide WasVerified;
    AcceptanceIDs(c, db.acceptances);
    MarkedExactly(db, id, r, now);
    MarkedStanding(db, orderID, id, r, now);
  }

  lemma MarkedExactly(db: Db, id: string, r: CancellationRecord, now: int)
    requires CancelledExactly(db.acceptances, db.cancellations) && id in db.acceptances && now > 0
    requires forall k :: k in db.acceptances ==> db.acceptances[k].signed.id == k
    requires Binds(r.signed.cancellation, db.acceptances[id].signed)
    ensures
      var marked := db.acceptances[id := db.acceptances[id].(cancelledAt := now, cancellation := Some(r.signed))];
      CancelledExactly(marked, db.cancellations[KeyOf(db.acceptances[id].signed) := r])
  {
    hide Binds;
  }

  lemma MarkedStanding(db: Db, orderID: string, id: string, r: CancellationRecord, now: int)
    requires MatchedStanding(db.orders, db.acceptances) && orderID in db.orders && id in db.acceptances
    requires db.acceptances[id].signed.acceptance.orderID == orderID
    requires !(db.orders[orderID].status == Matched && db.orders[orderID].acceptance.Some? &&
               db.orders[orderID].acceptance.value.id == id)
    ensures
      var marked := db.acceptances[id := db.acceptances[id].(cancelledAt := now, cancellation := Some(r.signed))];
      MatchedStanding(db.orders, marked)
  {
  }

  lemma MatchConsistent(c: Crypto, db: Db, op: Op, now: int)
    requires Consistent(c, db, now) && op.Match?
    ensures Consistent(c, After(c, db, op, now), now)
  {
    hide CancellationVerified, WasVerified, Binds, AppendTo, MatchVerified;
    if op.orderID in db.orders && op.matched.payload.acceptanceID in db.acceptances {
      MatchNamesOrder(c, op.matched, db.orders[op.orderID].signed, db.acceptances[op.matched.payload.acceptanceID].signed, now);
    }
  }

  lemma MatchNamesOrder(c: Crypto, m: SignedMatch, s: SignedOrder, a: SignedAcceptance, now: int)
    ensures MatchVerified(c, m, s, a, now) ==> a.acceptance.orderID == s.id
  {
  }

  lemma {:induction false} AlwaysConsistent(c: Crypto, ops: seq<(Op, int)>)
    requires ClockRuns(ops)
    ensures Consistent(c, Run(c, ops), Clock(ops))
  {
    if |ops| > 0 {
      hide Consistent, After;
      var front, op, now := ops[..|ops| - 1], ops[|ops| - 1].0, ops[|ops| - 1].1;
      AlwaysConsistent(c, front);
      var db := Run(c, front);
      ConsistentLater(c, db, Clock(front), now);
      StepConsistent(c, db, op, now);
    } else {
      assert Consistent(c, EMPTY, 0);
    }
  }

  lemma ConsistentLater(c: Crypto, db: Db, then_: int, now: int)
    requires Consistent(c, db, then_) && then_ <= now
    ensures Consistent(c, db, now)
  {
    hide CancellationsKeyed, CancelledExactly, MatchedStanding, OrdersKeyed, AcceptancesKeyed;
    CancellationsAge(c, db.cancellations, then_, now);
  }

  lemma StepConsistent(c: Crypto, db: Db, op: Op, now: int)
    requires Consistent(c, db, now) && now > 0
    ensures Consistent(c, After(c, db, op, now), now)
  {
    hide Consistent, After;
    match op {
      case PublishOrder(_) => PublishConsistent(c, db, op, now);
      case CancelOrder(_) => CancelOrderConsistent(c, db, op, now);
      case Submit(_, _) => SubmitConsistent(c, db, op, now);
      case Cancel(_, _, _) => CancelConsistent(c, db, op, now);
      case Match(_, _) => MatchConsistent(c, db, op, now);
      case Message(_) => MessageConsistent(c, db, op, now);
    }
  }

  lemma MessageConsistent(c: Crypto, db: Db, op: Op, now: int)
    requires Consistent(c, db, now) && op.Message?
    ensures Consistent(c, After(c, db, op, now), now)
  {
    hide OrdersKeyed, AcceptancesKeyed, CancellationsKeyed, CancelledExactly, MatchedStanding, AppendTo,
      MessageVerified, Routed;
  }

  /** In every reachable state no order is matched to a cancelled acceptance. */
  lemma NoMatchOnCancelled(c: Crypto, ops: seq<(Op, int)>, id: string)
    requires ClockRuns(ops) && id in Run(c, ops).orders && Run(c, ops).orders[id].status == Matched
    ensures
      var db := Run(c, ops);
      && db.orders[id].acceptance.Some?
      && var a := db.orders[id].acceptance.value;
         a.id in db.acceptances && db.acceptances[a.id].cancelledAt == 0 && KeyOf(a) !in db.cancellations
  {
    hide CancellationVerified, Binds, WasVerified;
    AlwaysConsistent(c, ops);
  }

  /** In every reachable state a stored acceptance has a cancellation under its key exactly when it is
      marked cancelled, and that cancellation binds it. */
  lemma CancellationMarksAcceptance(c: Crypto, ops: seq<(Op, int)>, id: string)
    requires ClockRuns(ops) && id in Run(c, ops).acceptances
    ensures
      var db := Run(c, ops);
      var a := db.acceptances[id];
      && (a.cancelledAt != 0 <==> KeyOf(a.signed) in db.cancellations)
      && (a.cancelledAt != 0 ==>
            a.cancellation == Some(db.cancellations[KeyOf(a.signed)].signed) && Binds(a.cancellation.value.cancellation, a.signed))
  {
    hide CancellationVerified, Binds, WasVerified;
    AlwaysConsistent(c, ops);
  }

  // ----- tombstones

  /** A cancellation of an acceptance the relay has not seen. */
  predicate Buried(db: Db, a: SignedAcceptance, x: SignedAcceptanceCancellation) {
    a.id !in db.acceptances && KeyOf(a) in db.cancellations && db.cancellations[KeyOf(a)].signed == x
  }

  /** No other text has the acceptance's identity. */
  ghost predicate Unmistakable(c: Crypto, a: SignedAcceptance) {
    NoSecondPreimage(c, SigningBytes(Record.AcceptanceRecord(a.acceptance)))
  }

  /** The late submit itself: no other text has the identity, so what arrives under the ID is the
      acceptance the cancellation binds, and it is refused. */
  lemma LateSubmitRefused(c: Crypto, db: Db, orderID: string, b: SignedAcceptance, now: int,
                          a: SignedAcceptance, x: SignedAcceptanceCancellation)
    requires DigestsAreHex(c) && Unmistakable(c, a) && WasVerified(c, a) && Binds(x.cancellation, a)
    requires Buried(db, a, x) && CancellationVerified(c, x, now) && b.id == a.id
    requires orderID in db.orders && AcceptanceVerified(c, b, db.orders[orderID].signed, now)
    ensures Tombstoned(c, db.cancellations, b, now)
  {
    hide AcceptanceVerified, CancellationVerified;
    var s: SignedOrder, t: int :| AcceptanceVerified(c, a, s, t);
    AcceptanceIdentity(c, a, s, t, b, db.orders[orderID].signed, now);
  }

  lemma StaysBuried(c: Crypto, db: Db, op: Op, now: int, a: SignedAcceptance, x: SignedAcceptanceCancellation)
    requires DigestsAreHex(c) && Unmistakable(c, a) && WasVerified(c, a) && Binds(x.cancellation, a)
    requires Consistent(c, db, now) && Buried(db, a, x)
    ensures Buried(After(c, db, op, now), a, x)
  {
    if op.Submit? {
      BuriedThroughSubmit(c, db, op, now, a, x);
    } else if op.Cancel? {
      BuriedThroughCancel(c, db, op, now, a, x);
    } else {
      hide After;
      UntouchedByOthers(c, db, op, now);
    }
  }

  lemma BuriedThroughSubmit(c: Crypto, db: Db, op: Op, now: int, a: SignedAcceptance, x: SignedAcceptanceCancellation)
    requires DigestsAreHex(c) && Unmistakable(c, a) && WasVerified(c, a) && Binds(x.cancellation, a)
    requires op.Submit? && CancellationsKeyed(c, db.cancellations, now) && Buried(db, a, x)
    ensures Buried(After(c, db, op, now), a, x)
  {
    hide AcceptanceVerified, Tombstoned, CancellationVerified, Binds, Pending, AppendTo, WasVerified;
    var b := op.acceptance;
    if b.id == a.id && op.orderID in db.orders && AcceptanceVerified(c, b, db.orders[op.orderID].signed, now) {
      LateSubmitRefused(c, db, op.orderID, b, now, a, x);
    }
  }

  lemma BuriedThroughCancel(c: Crypto, db: Db, op: Op, now: int, a: SignedAcceptance, x: SignedAcceptanceCancellation)
    requires op.Cancel? && Buried(db, a, x)
    ensures Buried(After(c, db, op, now), a, x)
  {
    hide CancellationVerified, CancellationBinds, CancelledFor;
  }

  lemma UntouchedByOthers(c: Crypto, db: Db, op: Op, now: int)
    requires !op.Submit? && !op.Cancel?
    ensures After(c, db, op, now).acceptances == db.acceptances && After(c, db, op, now).cancellations == db.cancellations
  {
    hide OrderVerified, OrderCancellationVerified, OpenOf, MatchVerified, MessageVerified, Routed, AppendTo;
  }

  /** Once a cancellation binding an unseen acceptance is stored, no later submit can store that
      acceptance and no order is ever matched to it. */
  lemma {:induction false} TombstoneIsForever(c: Crypto, ops: seq<(Op, int)>, i: nat, a: SignedAcceptance,
                                              x: SignedAcceptanceCancellation)
    requires DigestsAreHex(c) && Unmistakable(c, a) && WasVerified(c, a) && Binds(x.cancellation, a)
    requires ClockRuns(ops) && i <= |ops| && Buried(Run(c, ops[..i]), a, x)
    ensures Buried(Run(c, ops), a, x)
    ensures forall k :: k in Run(c, ops).orders && Run(c, ops).orders[k].status == Matched ==>
              Run(c, ops).orders[k].acceptance.Some? && Run(c, ops).orders[k].acceptance.value.id != a.id
    decreases |ops|
  {
    hide Buried, After, CancellationVerified, Binds, WasVerified;
    if i == |ops| {
      assert ops[..i] == ops;
    } else {
      var front, op, now := ops[..|ops| - 1], ops[|ops| - 1].0, ops[|ops| - 1].1;
      assert front[..i] == ops[..i];
      TombstoneIsForever(c, front, i, a, x);
      AlwaysConsistent(c, front);
      ConsistentLater(c, Run(c, front), Clock(front), now);
      StaysBuried(c, Run(c, front), op, now, a, x);
    }
    BuriedUnmatched(c, ops, a, x);
  }

  lemma BuriedUnmatched(c: Crypto, ops: seq<(Op, int)>, a: SignedAcceptance, x: SignedAcceptanceCancellation)
    requires ClockRuns(ops) && Buried(Run(c, ops), a, x)
    ensures forall k :: k in Run(c, ops).orders && Run(c, ops).orders[k].status == Matched ==>
              Run(c, ops).orders[k].acceptance.Some? && Run(c, ops).orders[k].acceptance.value.id != a.id
  {
    hide CancellationVerified, Binds, WasVerified, Run;
    AlwaysConsistent(c, ops);
  }
}
