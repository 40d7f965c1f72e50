/** Validation of the signed records: internal/order/order.go and internal/trade/protocol.go.
    Times are whole seconds. */
module Trade {
  import opened Basics
  import opened Records
  import opened Encoding

  const CLOCK_SKEW: int := 300
  const MINIMUM_LIFETIME: int := 60
  const MAXIMUM_LIFETIME: int := 30 * 24 * 3600
  const MINIMUM_BITCOIN_SATOSHIS: nat := 10_000
  const MAXIMUM_RAW_TRANSACTION: nat := 0x20_0000
  const MAX_MAILBOX_PAGE: nat := 100

  predicate IsNetwork(n: string) {
    n == "mainnet" || n == "testnet" || n == "regtest"
  }

  // Go's strings.TrimSpace takes off the runes of unicode.IsSpace, here in their UTF-8 form.

  predicate IsSpace(c: char) {
    c == ' ' || 9 <= c as int <= 13
  }

  /** U+0085 and U+00A0 */
  predicate IsLatinSpace(a: char, b: char) {
    a as int == 0xC2 && (b as int == 0x85 || b as int == 0xA0)
  }

  /** U+1680, U+2000 to U+200A, U+2028, U+2029, U+202F, U+205F and U+3000 */
  predicate IsWideSpace(a: char, b: char, c: char) {
    || (a as int == 0xE1 && b as int == 0x9A && c as int == 0x80)
    || (a as int == 0xE2 && b as int == 0x80 &&
        (0x80 <= c as int <= 0x8A || c as int == 0xA8 || c as int == 0xA9 || c as int == 0xAF))
    || (a as int == 0xE2 && b as int == 0x81 && c as int == 0x9F)
    || (a as int == 0xE3 && b as int == 0x80 && c as int == 0x80)
  }

  /** How many bytes the space takes that a text begins with; none if it begins with no space. */
  function LeadingSpace(s: string): (n: nat)
    ensures n <= |s|
  {
    if |s| >= 1 && IsSpace(s[0]) then 1
    else if |s| >= 2 && IsLatinSpace(s[0], s[1]) then 2
    else if |s| >= 3 && IsWideSpace(s[0], s[1], s[2]) then 3
    else 0
  }

  function TrailingSpace(s: string): (n: nat)
    ensures n <= |s|
  {
    if |s| >= 1 && IsSpace(s[|s| - 1]) then 1
    else if |s| >= 2 && IsLatinSpace(s[|s| - 2], s[|s| - 1]) then 2
    else if |s| >= 3 && IsWideSpace(s[|s| - 3], s[|s| - 2], s[|s| - 1]) then 3
    else 0
  }

  function TrimSpaceLeft(s: string): string {
    if LeadingSpace(s) > 0 then TrimSpaceLeft(s[LeadingSpace(s)..]) else s
  }

  function TrimSpaceRight(s: string): string {
    if TrailingSpace(s) > 0 then TrimSpaceRight(s[..|s| - TrailingSpace(s)]) else s
  }

  function TrimSpace(s: string): string {
    TrimSpaceRight(TrimSpaceLeft(s))
  }

  predicate AllSpace(s: string) {
    TrimSpace(s) == ""
  }

  predicate KeysValid(k: QDAYKeys) {
    IsDigest(k.classical) && IsDigest(k.reserve) && !AllSpace(k.address) && |k.address| <= 128
  }

  predicate BitcoinKeyValid(c: Crypto, key: string) {
    IsLowerHex(key, 33) && c.onCurve(key)
  }

  predicate MessageKeyValid(key: string) {
    IsDigest(key) && exists i :: 0 <= i < |key| && key[i] != '0'
  }

  predicate AtomicValid(v: string) {
    1 <= |v| <= 64 && (v[0] == '0' ==> |v| == 1) && AllDigits(v) && v != "0"
  }

  predicate PairValid(give: Amount, receive: Amount) {
    && ((give.asset == "QDAY" && receive.asset == "BTC") || (give.asset == "BTC" && receive.asset == "QDAY"))
    && AtomicValid(give.atomic) && AtomicValid(receive.atomic)
    && Value(if receive.asset == "BTC" then receive.atomic else give.atomic) >= MINIMUM_BITCOIN_SATOSHIS
  }

  predicate LifetimeValid(createdAt: int64, expiresAt: int64, now: int) {
    && createdAt <= now + CLOCK_SKEW
    && expiresAt > now
    && MINIMUM_LIFETIME <= expiresAt - createdAt <= MAXIMUM_LIFETIME
  }

  predicate OrderValid(c: Crypto, p: OrderPayload, now: int) {
    && (p.version == LEGACY_VERSION || p.version == ASYNC_VERSION)
    && IsNetwork(p.network)
    && p.market == "QDAY-BTC"
    && (p.qdayUnitAtomic == "1000000000000000000000000" || p.qdayUnitAtomic == "1000000000000000000")
    && PairValid(p.give, p.receive)
    && IsDigest(p.makerPublicKey)
    && MessageKeyValid(p.makerMessageKey)
    && (if p.version == ASYNC_VERSION then
          && IsDigest(p.sessionID) && KeysValid(p.makerQDAY) && BitcoinKeyValid(c, p.makerBitcoinKey)
          && p.makerQDAYHeight != 0 && p.makerBTCHeight != 0
        else
          && p.sessionID == "" && p.makerQDAY == NO_KEYS && p.makerBitcoinKey == ""
          && p.makerQDAYHeight == 0 && p.makerBTCHeight == 0)
    && IsLowerHex(p.nonce, 16)
    && LifetimeValid(p.createdAt, p.expiresAt, now)
  }

  predicate SignatureValid(c: Crypto, key: string, r: Record, signature: string) {
    IsLowerHex(signature, 64) && c.signed(key, SigningBytes(r), signature)
  }

  predicate OrderVerified(c: Crypto, s: SignedOrder, now: int) {
    && OrderValid(c, s.order, now)
    && s.id == c.digest(SigningBytes(OrderRecord(s.order)))
    && SignatureValid(c, s.order.makerPublicKey, OrderRecord(s.order), s.signature)
  }

  predicate OrderCancellationVerified(c: Crypto, s: SignedOrderCancellation, now: int) {
    var p := s.cancellation;
    && p.version == LEGACY_VERSION && IsDigest(p.orderID) && IsDigest(p.makerPublicKey)
    && p.createdAt <= now + CLOCK_SKEW
    && SignatureValid(c, p.makerPublicKey, OrderCancelRecord(p), s.signature)
  }

  predicate FundingValid(c: Crypto, f: FundingPackage, expectedAsset: string) {
    && f.asset == expectedAsset
    && IsDigest(f.transactionID)
    && 1 <= |f.rawTransactions| <= 2
    && (forall i :: 0 <= i < |f.rawTransactions| ==> 1 <= |f.rawTransactions[i]| <= MAXIMUM_RAW_TRANSACTION)
    && (f.asset == "QDAY" || f.asset == "BTC")
    && (f.asset == "QDAY" ==>
          && f.basisHeight != 0 && IsDigest(f.basisID)
          && forall i :: 0 <= i < |f.rawTransactions| ==> c.canonicalBase64(f.rawTransactions[i]))
    && (f.asset == "BTC" ==>
          && f.basisHeight == 0 && f.basisID == "" && |f.rawTransactions| == 1
          && |f.rawTransactions[0]| % 2 == 0
          && forall i :: 0 <= i < |f.rawTransactions[0]| ==> IsHexDigit(f.rawTransactions[0][i]))
  }

  predicate AcceptanceValid(c: Crypto, p: AcceptancePayload, s: SignedOrder, now: int) {
    && (p.version == LEGACY_VERSION || p.version == ASYNC_VERSION)
    && p.version == s.order.version
    && p.network == s.order.network && p.orderID == s.id
    && IsDigest(p.tradeID) && IsDigest(p.takerPublicKey) && p.takerPublicKey != s.order.makerPublicKey
    && MessageKeyValid(p.takerMessageKey)
    && (if p.version == ASYNC_VERSION then
          && KeysValid(p.takerQDAY) && BitcoinKeyValid(c, p.takerBitcoinKey) && IsDigest(p.secretHash)
          && p.takerQDAYHeight != 0 && p.takerBTCHeight != 0
          && p.qdayRefundHeight > p.takerQDAYHeight && p.btcRefundHeight > p.takerBTCHeight
          && FundingValid(c, p.funding, s.order.receive.asset)
        else
          && p.takerQDAY == NO_KEYS && p.takerBitcoinKey == "" && p.takerQDAYHeight == 0 && p.takerBTCHeight == 0
          && p.secretHash == "" && p.qdayRefundHeight == 0 && p.btcRefundHeight == 0 && p.funding == NO_FUNDING)
    && LifetimeValid(p.createdAt, p.expiresAt, now)
    && p.expiresAt <= s.order.expiresAt
  }

  predicate AcceptanceVerified(c: Crypto, a: SignedAcceptance, s: SignedOrder, now: int) {
    && OrderVerified(c, s, now)
    && AcceptanceValid(c, a.acceptance, s, now)
    && a.id == c.digest(SigningBytes(AcceptanceRecord(a.acceptance)))
    && SignatureValid(c, a.acceptance.takerPublicKey, AcceptanceRecord(a.acceptance), a.signature)
  }

  predicate CancellationVerified(c: Crypto, x: SignedAcceptanceCancellation, now: int) {
    var p := x.cancellation;
    && (p.version == LEGACY_VERSION || p.version == ASYNC_VERSION)
    && IsNetwork(p.network)
    && IsDigest(p.orderID) && IsDigest(p.tradeID) && IsDigest(p.acceptanceID) && IsDigest(p.takerPublicKey)
    && p.createdAt <= now + CLOCK_SKEW
    && SignatureValid(c, p.takerPublicKey, AcceptanceCancelRecord(p), x.signature)
  }

  /** The part of VerifyAcceptance that compares the two payloads. */
  predicate Binds(p: AcceptanceCancellation, a: SignedAcceptance) {
    && p.version == a.acceptance.version && p.network == a.acceptance.network
    && p.orderID == a.acceptance.orderID && p.tradeID == a.acceptance.tradeID
    && p.acceptanceID == a.id && p.takerPublicKey == a.acceptance.takerPublicKey
    && p.createdAt >= a.acceptance.createdAt
  }

  predicate CancellationBinds(c: Crypto, x: SignedAcceptanceCancellation, a: SignedAcceptance, now: int) {
    CancellationVerified(c, x, now) && Binds(x.cancellation, a)
  }

  predicate MatchVerified(c: Crypto, m: SignedMatch, s: SignedOrder, a: SignedAcceptance, now: int) {
    var p := m.payload;
    && AcceptanceVerified(c, a, s, now)
    && (p.version == LEGACY_VERSION || p.version == ASYNC_VERSION)
    && p.version == a.acceptance.version
    && p.network == s.order.network && p.orderID == s.id && p.tradeID == a.acceptance.tradeID
    && p.acceptanceID == a.id
    && p.makerPublicKey == s.order.makerPublicKey && p.takerPublicKey == a.acceptance.takerPublicKey
    && p.createdAt <= now + CLOCK_SKEW
    && a.acceptance.createdAt <= p.createdAt <= a.acceptance.expiresAt
    && m.id == c.digest(SigningBytes(MatchRecord(p)))
    && IsDigest(p.makerPublicKey)
    && SignatureValid(c, p.makerPublicKey, MatchRecord(p), m.signature)
  }

  predicate MessageValid(c: Crypto, p: MessagePayload, now: int) {
    && p.version == LEGACY_VERSION
    && IsNetwork(p.network)
    && IsDigest(p.orderID) && IsDigest(p.tradeID)
    && p.sequence != 0
    && IsDigest(p.senderPublicKey) && IsDigest(p.recipientPublicKey) && p.senderPublicKey != p.recipientPublicKey
    && IsLowerHex(p.nonce, 24)
    && c.canonicalBase64(p.ciphertext) && 22 < |p.ciphertext| <= 43_713
    && LifetimeValid(p.createdAt, p.expiresAt, now)
  }

  predicate MessageVerified(c: Crypto, m: SignedMessage, now: int) {
    && MessageValid(c, m.message, now)
    && m.id == c.digest(SigningBytes(MessageRecord(m.message)))
    && SignatureValid(c, m.message.senderPublicKey, MessageRecord(m.message), m.signature)
  }

  predicate PollValid(p: PollPayload, now: int) {
    && p.version == LEGACY_VERSION
    && IsNetwork(p.network) && IsDigest(p.recipientPublicKey)
    && 1 <= p.limit <= MAX_MAILBOX_PAGE
    && now - CLOCK_SKEW <= p.createdAt <= now + CLOCK_SKEW
    && IsLowerHex(p.nonce, 16)
  }

  // ----- validated records are signable, so their bytes and identities are unambiguous

  lemma ValidOrderSignable(c: Crypto, p: OrderPayload, now: int)
    requires OrderValid(c, p, now)
    ensures Signable(OrderRecord(p))
  {
  }

  lemma TextsFit(head: seq<Field>, raws: seq<string>)
    requires AllFit(head) && forall i :: 0 <= i < |raws| ==> |raws[i]| < TWO_TO_32
    ensures AllFit(head + Texts(raws))
  {
  }

  lemma ValidAcceptanceSignable(c: Crypto, p: AcceptancePayload, s: SignedOrder, now: int)
    requires AcceptanceValid(c, p, s, now) && IsNetwork(s.order.network) && IsDigest(s.id)
    ensures Signable(AcceptanceRecord(p))
  {
    assert AllFit(AcceptanceHead(p));
    if p.version == ASYNC_VERSION {
      TextsFit(AcceptanceHead(p), p.funding.rawTransactions);
    }
  }

  lemma ValidMessageSignable(c: Crypto, p: MessagePayload, now: int)
    requires MessageValid(c, p, now)
    ensures Signable(MessageRecord(p))
  {
  }

  lemma ValidOrderCancelSignable(c: Crypto, x: SignedOrderCancellation, now: int)
    requires OrderCancellationVerified(c, x, now)
    ensures Signable(OrderCancelRecord(x.cancellation))
  {
    hide SignatureValid;
  }

  lemma ValidCancellationSignable(c: Crypto, x: SignedAcceptanceCancellation, now: int)
    requires CancellationVerified(c, x, now)
    ensures Signable(AcceptanceCancelRecord(x.cancellation))
  {
    hide SignatureValid;
  }

  lemma ValidMatchSignable(c: Crypto, m: SignedMatch, s: SignedOrder, a: SignedAcceptance, now: int)
    requires MatchVerified(c, m, s, a, now) && IsDigest(s.id) && IsDigest(a.id)
    ensures Signable(MatchRecord(m.payload))
  {
    AcceptedFields(c, a, s, now);
    hide SignatureValid, AcceptanceVerified, Signable, SigningBytes, IsNetwork, IsDigest;
    MatchOfDigests(m.payload);
  }

  lemma MatchOfDigests(p: MatchPayload)
    requires IsNetwork(p.network) && IsDigest(p.orderID) && IsDigest(p.tradeID) && IsDigest(p.acceptanceID)
    requires IsDigest(p.makerPublicKey) && IsDigest(p.takerPublicKey)
    ensures Signable(MatchRecord(p))
  {
  }

  lemma AcceptedFields(c: Crypto, a: SignedAcceptance, s: SignedOrder, now: int)
    requires AcceptanceVerified(c, a, s, now)
    ensures IsNetwork(s.order.network) && IsDigest(a.acceptance.tradeID) && IsDigest(a.acceptance.takerPublicKey)
  {
    hide SignatureValid, KeysValid, FundingValid, LifetimeValid, PairValid;
  }

  lemma ValidPollSignable(p: PollPayload, now: int)
    requires PollValid(p, now)
    ensures Signable(PollRecord(p))
  {
  }

  /** A payload some validation accepts, at some time and, where it needs them, with some order and acceptance. */
  ghost predicate Validated(c: Crypto, r: Record) {
    match r
    case OrderRecord(p) => exists now: int :: OrderValid(c, p, now)
    case OrderCancelRecord(p) =>
      exists x: SignedOrderCancellation, now: int :: x.cancellation == p && OrderCancellationVerified(c, x, now)
    case AcceptanceRecord(p) =>
      exists s: SignedOrder, now: int :: OrderVerified(c, s, now) && AcceptanceValid(c, p, s, now)
    case AcceptanceCancelRecord(p) =>
      exists x: SignedAcceptanceCancellation, now: int :: x.cancellation == p && CancellationVerified(c, x, now)
    case MatchRecord(p) =>
      exists m: SignedMatch, s: SignedOrder, a: SignedAcceptance, now: int :: m.payload == p && MatchVerified(c, m, s, a, now)
    case MessageRecord(p) => exists now: int :: MessageValid(c, p, now)
    case PollRecord(p) => exists now: int :: PollValid(p, now)
  }

  lemma VerifiedIDs(c: Crypto, m: SignedMatch, s: SignedOrder, a: SignedAcceptance, now: int)
    requires DigestsAreHex(c) && MatchVerified(c, m, s, a, now)
    ensures IsDigest(s.id) && IsDigest(a.id)
  {
    hide SignatureValid, KeysValid, FundingValid, LifetimeValid, PairValid, SigningBytes;
  }

  lemma VerifiedOrderID(c: Crypto, s: SignedOrder, now: int)
    requires DigestsAreHex(c) && OrderVerified(c, s, now)
    ensures IsDigest(s.id) && IsNetwork(s.order.network)
  {
    hide SignatureValid, KeysValid, LifetimeValid, PairValid, SigningBytes;
  }

  /** Each of the seven kinds: whatever validation accepts is recovered exactly from the bytes it signs. */
  lemma ValidatedReads(c: Crypto, r: Record)
    requires DigestsAreHex(c) && Validated(c, r)
    ensures Signable(r) && Read(SigningBytes(r)) == Some(r)
  {
    hide OrderValid, OrderCancellationVerified, OrderVerified, AcceptanceValid, CancellationVerified, MatchVerified,
      MessageValid, PollValid, Signable, Read, SigningBytes, DigestsAreHex;
    match r {
      case OrderRecord(p) =>
        var now: int :| OrderValid(c, p, now);
        ValidOrderSignable(c, p, now);
      case OrderCancelRecord(p) =>
        var x: SignedOrderCancellation, now: int :| x.cancellation == p && OrderCancellationVerified(c, x, now);
        ValidOrderCancelSignable(c, x, now);
      case AcceptanceRecord(p) =>
        var s: SignedOrder, now: int :| OrderVerified(c, s, now) && AcceptanceValid(c, p, s, now);
        VerifiedOrderID(c, s, now);
        ValidAcceptanceSignable(c, p, s, now);
      case AcceptanceCancelRecord(p) =>
        var x: SignedAcceptanceCancellation, now: int :| x.cancellation == p && CancellationVerified(c, x, now);
        ValidCancellationSignable(c, x, now);
      case MatchRecord(p) =>
        var m: SignedMatch, s: SignedOrder, a: SignedAcceptance, now: int :| m.payload == p && MatchVerified(c, m, s, a, now);
        VerifiedIDs(c, m, s, a, now);
        ValidMatchSignable(c, m, s, a, now);
      case MessageRecord(p) =>
        var now: int :| MessageValid(c, p, now);
        ValidMessageSignable(c, p, now);
      case PollRecord(p) =>
        var now: int :| PollValid(p, now);
        ValidPollSignable(p, now);
    }
    ReadInverts(r);
  }

  /** A message keeps its validity as of its own creation, so a late reader can always check it there. */
  lemma VerifiedAtCreation(c: Crypto, m: SignedMessage, now: int)
    requires MessageVerified(c, m, now)
    ensures MessageVerified(c, m, m.message.createdAt)
  {
  }

  /** Two verified messages with one ID are the same message, up to the signature. */
  lemma MessageIdentity(c: Crypto, a: SignedMessage, b: SignedMessage, t: int, u: int)
    requires MessageVerified(c, a, t) && MessageVerified(c, b, u) && a.id == b.id
    requires NoSecondPreimage(c, SigningBytes(MessageRecord(a.message)))
    ensures a.message == b.message
  {
    ValidMessageSignable(c, a.message, t);
    ValidMessageSignable(c, b.message, u);
    IdentitiesDistinct(c, MessageRecord(a.message), MessageRecord(b.message));
  }

  /** Two verified acceptances with one ID are the same acceptance, up to the signature. */
  lemma AcceptanceIdentity(c: Crypto, a: SignedAcceptance, s: SignedOrder, t: int,
                           b: SignedAcceptance, r: SignedOrder, u: int)
    requires DigestsAreHex(c) && NoSecondPreimage(c, SigningBytes(AcceptanceRecord(a.acceptance)))
    requires AcceptanceVerified(c, a, s, t) && AcceptanceVerified(c, b, r, u) && a.id == b.id
    ensures a.acceptance == b.acceptance
  {
    ValidAcceptanceSignable(c, a.acceptance, s, t);
    ValidAcceptanceSignable(c, b.acceptance, r, u);
    IdentitiesDistinct(c, AcceptanceRecord(a.acceptance), AcceptanceRecord(b.acceptance));
  }
}
