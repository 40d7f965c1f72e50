/** Concrete records and runs that meet every hypothesis of the tombstone theorem and of the reservation that
    outlives its order. */
module RelayWitness {
  import opened Basics
  import opened Records
  import opened Encoding
  import opened Trade
  import opened Terms
  import opened Relay
  import opened RelaySafety
  import S = Snapshot

  const LATE: SignedAcceptance := SAMPLE_ACCEPTANCE.(id := Letters('b', 64))

  /** Only the late acceptance has the digest of all b. */
  ghost const TELLING := Crypto(
    x => if x == SigningBytes(Record.AcceptanceRecord(LATE.acceptance)) then Letters('b', 64) else Letters('a', 64),
    (_, _, _) => true, _ => true, _ => true)

  const EARLY := SignedAcceptanceCancellation(
    AcceptanceCancellation(
      ASYNC_VERSION, "regtest", Letters('a', 64), Letters('a', 64), Letters('b', 64), Letters('b', 64), 1000),
    Letters('a', 128))

  const ORDER_ID: string := SAMPLE_ORDER.id

  const EARLIER := [(PublishOrder(SAMPLE_ORDER), 1000), (Cancel(ORDER_ID, LATE.id, EARLY), 1000)]

  lemma TellingIsHex()
    ensures DigestsAreHex(TELLING) && Unmistakable(TELLING, LATE)
  {
    assert Letters('a', 64)[0] != Letters('b', 64)[0];
  }

  lemma SampleSignable()
    ensures Signable(Record.OrderRecord(SAMPLE_ORDER.order)) && Signable(Record.AcceptanceRecord(LATE.acceptance))
  {
    hide OrderValid, AcceptanceValid;
    SampleOrderVerified();
    SampleAcceptanceValid();
    ValidOrderSignable(ACCEPTING, SAMPLE_ORDER.order, 1000);
    ValidAcceptanceSignable(ACCEPTING, LATE.acceptance, SAMPLE_ORDER, 1000);
  }

  /** Validity asks the primitives only which keys lie on the curve. */
  lemma SameCurve(c: Crypto, d: Crypto, p: OrderPayload, now: int)
    requires c.onCurve == d.onCurve && OrderValid(c, p, now)
    ensures OrderValid(d, p, now)
  {
    hide PairValid, KeysValid, MessageKeyValid, LifetimeValid;
  }

  lemma OtherBytes()
    ensures SigningBytes(Record.OrderRecord(SAMPLE_ORDER.order)) != SigningBytes(Record.AcceptanceRecord(LATE.acceptance))
  {
    hide SigningBytes, Signable;
    SampleSignable();
    if SigningBytes(Record.OrderRecord(SAMPLE_ORDER.order)) == SigningBytes(Record.AcceptanceRecord(LATE.acceptance)) {
      SigningBytesInjective(Record.OrderRecord(SAMPLE_ORDER.order), Record.AcceptanceRecord(LATE.acceptance));
    }
  }

  lemma OrderVerifiedHere()
    ensures OrderVerified(TELLING, SAMPLE_ORDER, 1000)
  {
    hide SigningBytes, OrderValid;
    SampleOrderVerified();
    SameCurve(ACCEPTING, TELLING, SAMPLE_ORDER.order, 1000);
    OtherBytes();
  }

  lemma LateVerified()
    ensures AcceptanceVerified(TELLING, LATE, SAMPLE_ORDER, 1000)
  {
    hide OrderVerified, SigningBytes, KeysValid, MessageKeyValid;
    OrderVerifiedHere();
    SampleAcceptanceValid();
  }

  lemma EarlyBinds()
    ensures CancellationVerified(TELLING, EARLY, 1000) && Binds(EARLY.cancellation, LATE)
  {
    hide SigningBytes;
  }

  /** The first order of a relay. */
  lemma FirstOrder(c: Crypto, s: SignedOrder, now: int)
    requires OrderVerified(c, s, now)
    ensures
      var db := After(c, EMPTY, PublishOrder(s), now);
      && db.acceptances == map[] && db.cancellations == map[]
      && s.id in db.orders && db.orders[s.id].signed == s && db.orders[s.id].status == Open
  {
    hide OrderVerified;
    assert OpenOf(map[], s.order.makerPublicKey, now) == {};
  }

  /** A first cancellation that comes before its acceptance. */
  lemma FirstCancellation(c: Crypto, db: Db, a: SignedAcceptance, x: SignedAcceptanceCancellation, now: int)
    requires CancellationVerified(c, x, now) && Binds(x.cancellation, a) && a.acceptance.orderID in db.orders
    requires db.acceptances == map[] && db.cancellations == map[] && db.orders[a.acceptance.orderID].status == Open
    requires a.acceptance.network == db.orders[a.acceptance.orderID].signed.order.network
    requires a.acceptance.takerPublicKey != db.orders[a.acceptance.orderID].signed.order.makerPublicKey
    ensures
      var after := After(c, db, Cancel(a.acceptance.orderID, a.id, x), now);
      after.orders == db.orders && Buried(after, a, x)
  {
    hide CancellationVerified;
    assert CancelledFor(map[], a.acceptance.orderID) == {};
  }

  lemma TwoSteps(c: Crypto, p: Op, q: Op, t: int, u: int)
    ensures Run(c, [(p, t), (q, u)]) == After(c, After(c, EMPTY, p, t), q, u)
  {
    hide After;
    assert Run(c, [(p, t)]) == After(c, EMPTY, p, t) by {
      assert [(p, t)][..0] == [];
    }
    assert [(p, t), (q, u)][..1] == [(p, t)];
  }

  lemma SamplesMeet()
    ensures SAMPLE_ORDER.id == LATE.acceptance.orderID == ORDER_ID
    ensures LATE.acceptance.network == SAMPLE_ORDER.order.network
    ensures LATE.acceptance.takerPublicKey != SAMPLE_ORDER.order.makerPublicKey
  {
    SampleKeysValid();
  }

  /** After both operations the order is open and the acceptance buried. */
  lemma BothApplied()
    ensures
      var db := Run(TELLING, EARLIER);
      && Buried(db, LATE, EARLY)
      && ORDER_ID in db.orders && db.orders[ORDER_ID].signed == SAMPLE_ORDER && db.orders[ORDER_ID].status == Open
  {
    hide After, Run, OrderVerified, CancellationVerified, Binds, Buried, Letters, SAMPLE_ORDER, LATE, EARLY, TELLING, ORDER_ID;
    OrderVerifiedHere();
    FirstOrder(TELLING, SAMPLE_ORDER, 1000);
    EarlyBinds();
    SamplesMeet();
    FirstCancellation(TELLING, After(TELLING, EMPTY, PublishOrder(SAMPLE_ORDER), 1000), LATE, EARLY, 1000);
    TwoSteps(TELLING, PublishOrder(SAMPLE_ORDER), Cancel(ORDER_ID, LATE.id, EARLY), 1000, 1000);
  }

  /** The order is open, the acceptance verifies, its cancellation came first: all hypotheses hold, and the
      late submit is refused. */
  lemma TombstoneHappens()
    ensures DigestsAreHex(TELLING) && Unmistakable(TELLING, LATE) && WasVerified(TELLING, LATE)
    ensures Binds(EARLY.cancellation, LATE) && ClockRuns(EARLIER) && Buried(Run(TELLING, EARLIER), LATE, EARLY)
    ensures Submitted(TELLING, Run(TELLING, EARLIER), ORDER_ID, LATE, 1000) == Err(RelayError.AcceptanceCancelled)
  {
    hide AcceptanceVerified, CancellationVerified, Binds, Run, DigestsAreHex, Unmistakable, Letters, TELLING;
    TellingIsHex();
    LateVerified();
    EarlyBinds();
    BothApplied();
  }

  // ----- and one of a closed order that stays reserved

  const SAMPLE_MATCH := SignedMatch(
    MatchPayload(
      ASYNC_VERSION, "regtest", Letters('a', 64), Letters('a', 64), Letters('a', 64), Letters('a', 64), Letters('b', 64), 1000),
    Letters('a', 64), Letters('a', 128))

  const SAMPLE_CLOSE := SignedOrderCancellation(
    OrderCancellation(LEGACY_VERSION, Letters('a', 64), Letters('a', 64), 1000), Letters('a', 128))

  lemma SampleMatchVerified()
    ensures MatchVerified(ACCEPTING, SAMPLE_MATCH, SAMPLE_ORDER, SAMPLE_ACCEPTANCE, 1000)
  {
    hide AcceptanceVerified, SigningBytes;
    SampleAcceptanceVerified();
  }

  lemma SampleCloseVerified()
    ensures OrderCancellationVerified(ACCEPTING, SAMPLE_CLOSE, 1000)
  {
    hide SigningBytes;
  }

  /** The records of Snapshot.ClosedStillReserved exist. */
  lemma ClosingHappens()
    ensures S.ClosingRecords(ACCEPTING, SAMPLE_ORDER, SAMPLE_ACCEPTANCE, SAMPLE_MATCH, SAMPLE_CLOSE, 1000)
  {
    hide OrderVerified, AcceptanceVerified, MatchVerified, OrderCancellationVerified;
    SampleOrderVerified();
    SampleAcceptanceVerified();
    SampleMatchVerified();
    SampleCloseVerified();
  }
}
