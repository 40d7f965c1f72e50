/** Refund heights (AsyncRefundHeights) and the immutable agreement (internal/swap/terms.go). */
module Terms {
  import opened Basics
  import opened Records
  import opened Encoding
  import opened Trade

  datatype Party = Maker | Taker

  function Opposite(p: Party): Party {
    if p.Maker? then Taker else Maker
  }

  datatype HeightError = NotAsynchronous | AfterExpiry | Overflow

  // ----- Go integer arithmetic

  function WrapS64(x: int): int64 {
    var u := x % TWO_TO_64;
    if u < TWO_TO_63 then u else u - TWO_TO_64
  }

  function WrapU64(x: int): uint64 {
    x % TWO_TO_64
  }

  /** Division truncating toward zero. */
  function Quotient(a: int, b: int): int
    requires b > 0
  {
    if a >= 0 then a / b else -((-a) / b)
  }

  function QDAYWindow(giveAsset: string): nat {
    if giveAsset == "QDAY" then 1_440 else 2_880
  }

  function BitcoinWindow(giveAsset: string): nat {
    if giveAsset == "QDAY" then 288 else 144
  }

  function AsyncRefundHeights(terms: OrderPayload, createdAt: int64, takerQDAY: uint64, takerBTC: uint32)
    : Result<(uint64, uint32), HeightError>
  {
    if terms.version != ASYNC_VERSION then Err(NotAsynchronous)
    else
      var remaining: int64 := WrapS64(terms.expiresAt - createdAt);
      if remaining < 0 then Err(AfterExpiry)
      else
        var qdayBase: uint64 := Max(terms.makerQDAYHeight, takerQDAY);
        var bitcoinBase: uint32 := Max(terms.makerBTCHeight, takerBTC);
        var qdayRefund := MachineHeight(qdayBase, remaining, 60, QDAYWindow(terms.give.asset));
        var bitcoinRefund := MachineHeight(bitcoinBase, remaining, 600, BitcoinWindow(terms.give.asset));
        if qdayRefund < qdayBase || bitcoinRefund >= TWO_TO_32 then Err(Overflow)
        else Ok((qdayRefund, bitcoinRefund))
  }

  // ----- the same heights over unbounded integers

  function CeilDiv(a: nat, b: nat): nat
    requires b > 0
  {
    (a + b - 1) / b
  }

  function QDAYHeight(terms: OrderPayload, createdAt: int, takerQDAY: nat): nat
    requires createdAt <= terms.expiresAt
  {
    Max(terms.makerQDAYHeight, takerQDAY) + CeilDiv(terms.expiresAt - createdAt, 60) + QDAYWindow(terms.give.asset)
  }

  function BitcoinHeight(terms: OrderPayload, createdAt: int, takerBTC: nat): nat
    requires createdAt <= terms.expiresAt
  {
    Max(terms.makerBTCHeight, takerBTC) + CeilDiv(terms.expiresAt - createdAt, 600) + BitcoinWindow(terms.give.asset)
  }

  /** Validation bounds the time left on the order, so no delay can wrap. */
  lemma RemainingBounded(c: Crypto, s: SignedOrder, p: AcceptancePayload, now: int)
    requires OrderValid(c, s.order, now) && AcceptanceValid(c, p, s, now)
    ensures 60 <= s.order.expiresAt - p.createdAt <= 2 * MAXIMUM_LIFETIME + CLOCK_SKEW
  {
  }

  /** The wrapping sums of AsyncRefundHeights. */
  function MachineHeight(base: uint64, remaining: int64, unit: nat, window: nat): uint64
    requires unit > 0
  {
    WrapU64(WrapU64(base + WrapU64(Quotient(WrapS64(remaining + (unit - 1)), unit))) + window)
  }

  /** Adding unit - 1 and truncating is rounding up, when nothing wraps. */
  lemma DelayExact(remaining: nat, unit: nat)
    requires (unit == 60 || unit == 600) && remaining < TWO_TO_32 - 600
    ensures WrapU64(Quotient(WrapS64(remaining + (unit - 1)), unit)) == CeilDiv(remaining, unit) < TWO_TO_32
  {
    var n := remaining + (unit - 1);
    assert WrapS64(n) == n;
    if unit == 60 {
      assert 0 <= n / 60 <= n;
    } else {
      assert 0 <= n / 600 <= n;
    }
  }

  /** Two wrapping additions of small terms wrap at most once, and the guard sees it. */
  lemma SumExact(base: uint64, delay: nat, window: nat)
    requires delay < TWO_TO_32 && 0 < window < TWO_TO_32
    ensures
      var machine, exact := WrapU64(WrapU64(base + delay) + window), base + delay + window;
      machine == (if exact < TWO_TO_64 then exact else exact - TWO_TO_64) && (machine < base <==> exact >= TWO_TO_64)
  {
    var inner := base + delay;
    assert inner % TWO_TO_64 == if inner < TWO_TO_64 then inner else inner - TWO_TO_64;
    var outer := WrapU64(inner) + window;
    assert outer % TWO_TO_64 == if outer < TWO_TO_64 then outer else outer - TWO_TO_64;
  }

  lemma MachineHeightExact(base: uint64, remaining: nat, unit: nat, window: nat)
    requires (unit == 60 || unit == 600) && remaining < TWO_TO_32 - 600 && 0 < window < TWO_TO_32
    ensures
      var machine, exact := MachineHeight(base, remaining, unit, window), base + CeilDiv(remaining, unit) + window;
      machine == (if exact < TWO_TO_64 then exact else exact - TWO_TO_64) && (machine < base <==> exact >= TWO_TO_64)
  {
    hide WrapU64, WrapS64, Quotient, CeilDiv;
    DelayExact(remaining, unit);
    SumExact(base, CeilDiv(remaining, unit), window);
  }

  /** For every valid version 2 acceptance the machine arithmetic is the unbounded formula, and it
      reports an overflow exactly when a height does not fit its type. */
  lemma HeightsExact(c: Crypto, s: SignedOrder, p: AcceptancePayload, now: int)
    requires OrderValid(c, s.order, now) && AcceptanceValid(c, p, s, now) && p.version == ASYNC_VERSION
    ensures p.createdAt <= s.order.expiresAt
    ensures
      var q := QDAYHeight(s.order, p.createdAt, p.takerQDAYHeight);
      var b := BitcoinHeight(s.order, p.createdAt, p.takerBTCHeight);
      AsyncRefundHeights(s.order, p.createdAt, p.takerQDAYHeight, p.takerBTCHeight) ==
      if q < TWO_TO_64 && b < TWO_TO_32 then Ok((q, b)) else Err(Overflow)
  {
    RemainingBounded(c, s, p, now);
    BoundedHeightsExact(s.order, p.createdAt, p.takerQDAYHeight, p.takerBTCHeight);
  }

  lemma BoundedHeightsExact(terms: OrderPayload, createdAt: int64, takerQDAY: uint64, takerBTC: uint32)
    requires terms.version == ASYNC_VERSION && 0 <= terms.expiresAt - createdAt < TWO_TO_32 - 600
    ensures
      var q := QDAYHeight(terms, createdAt, takerQDAY);
      var b := BitcoinHeight(terms, createdAt, takerBTC);
      AsyncRefundHeights(terms, createdAt, takerQDAY, takerBTC) ==
      if q < TWO_TO_64 && b < TWO_TO_32 then Ok((q, b)) else Err(Overflow)
  {
    var remaining := terms.expiresAt - createdAt;
    assert WrapS64(remaining) == remaining;
    hide WrapS64, MachineHeight, CeilDiv;
    MachineHeightExact(Max(terms.makerQDAYHeight, takerQDAY), remaining, 60, QDAYWindow(terms.give.asset));
    MachineHeightExact(Max(terms.makerBTCHeight, takerBTC), remaining, 600, BitcoinWindow(terms.give.asset));
  }

  /** Seconds from the acceptance until a leg's refund opens, at 60 s and 600 s per block. */
  function LegSeconds(asset: string, terms: OrderPayload, createdAt: int, takerQDAY: nat, takerBTC: nat): int
    requires createdAt <= terms.expiresAt
  {
    if asset == "QDAY" then
      60 * (QDAYHeight(terms, createdAt, takerQDAY) - Max(terms.makerQDAYHeight, takerQDAY))
    else
      600 * (BitcoinHeight(terms, createdAt, takerBTC) - Max(terms.makerBTCHeight, takerBTC))
  }

  lemma CeilDivBounds(a: nat)
    ensures a <= 60 * CeilDiv(a, 60) <= a + 59 && a <= 600 * CeilDiv(a, 600) <= a + 599
    ensures 0 <= 600 * CeilDiv(a, 600) - 60 * CeilDiv(a, 60) <= 540
  {
    var q, b := CeilDiv(a, 60), CeilDiv(a, 600);
    assert 60 * (10 * b - q) <= 599;
    assert 10 * b - q <= 9;
    assert 60 * (10 * b - q) >= -59;
    assert 10 * b - q >= 0;
  }

  /** The taker funds first and waits longest: its refund opens at least 85,860 seconds after the maker's, a full
      day when the maker gives QDAY, and the maker's at least a day after the order expires. */
  lemma TakerWaitsLonger(terms: OrderPayload, createdAt: int, takerQDAY: nat, takerBTC: nat)
    requires createdAt <= terms.expiresAt && PairValid(terms.give, terms.receive)
    ensures
      var maker := LegSeconds(terms.give.asset, terms, createdAt, takerQDAY, takerBTC);
      var taker := LegSeconds(terms.receive.asset, terms, createdAt, takerQDAY, takerBTC);
      && taker >= maker + 85_860 && maker >= terms.expiresAt - createdAt + 86_400
      && (terms.give.asset == "QDAY" ==> taker >= maker + 86_400)
  {
    CeilDivBounds(terms.expiresAt - createdAt);
  }

  /** At expiry nothing is left of the order but the windows. */
  lemma ExpiryDelay(terms: OrderPayload, takerQDAY: nat, takerBTC: nat)
    ensures LegSeconds("QDAY", terms, terms.expiresAt, takerQDAY, takerBTC) == 60 * QDAYWindow(terms.give.asset)
    ensures LegSeconds("BTC", terms, terms.expiresAt, takerQDAY, takerBTC) == 600 * BitcoinWindow(terms.give.asset)
  {
    CeilDivBounds(0);
    assert terms.expiresAt - terms.expiresAt == 0;
    hide CeilDiv, QDAYWindow, BitcoinWindow;
  }

  /** One second before, one more block of either chain. */
  lemma LastSecondDelay(terms: OrderPayload, takerQDAY: nat, takerBTC: nat)
    ensures LegSeconds("QDAY", terms, terms.expiresAt - 1, takerQDAY, takerBTC) == 60 + 60 * QDAYWindow(terms.give.asset)
    ensures LegSeconds("BTC", terms, terms.expiresAt - 1, takerQDAY, takerBTC) == 600 + 600 * BitcoinWindow(terms.give.asset)
  {
    CeilDivBounds(1);
    assert terms.expiresAt - (terms.expiresAt - 1) == 1;
    hide CeilDiv, QDAYWindow, BitcoinWindow;
  }

  /** The bounds are attained: one second before expiry when the maker gives Bitcoin. */
  lemma GapIsTight(terms: OrderPayload, takerQDAY: nat, takerBTC: nat)
    requires PairValid(terms.give, terms.receive) && terms.give.asset == "BTC"
    ensures LegSeconds("QDAY", terms, terms.expiresAt - 1, takerQDAY, takerBTC) ==
            LegSeconds("BTC", terms, terms.expiresAt - 1, takerQDAY, takerBTC) + 85_860
    ensures LegSeconds("BTC", terms, terms.expiresAt, takerQDAY, takerBTC) == 86_400
  {
    hide CeilDiv, LegSeconds, PairValid;
    LastSecondDelay(terms, takerQDAY, takerBTC);
    ExpiryDelay(terms, takerQDAY, takerBTC);
  }

  /** And at expiry when it gives QDAY. */
  lemma GapIsTightGivingQDAY(terms: OrderPayload, takerQDAY: nat, takerBTC: nat)
    requires PairValid(terms.give, terms.receive) && terms.give.asset == "QDAY"
    ensures LegSeconds("BTC", terms, terms.expiresAt, takerQDAY, takerBTC) ==
            LegSeconds("QDAY", terms, terms.expiresAt, takerQDAY, takerBTC) + 86_400
    ensures LegSeconds("QDAY", terms, terms.expiresAt, takerQDAY, takerBTC) == 86_400
  {
    hide CeilDiv, LegSeconds, PairValid;
    ExpiryDelay(terms, takerQDAY, takerBTC);
  }

  // ----- the agreement

  datatype Hello = Hello(
    version: uint16, network: string, orderID: string, tradeID: string, party: Party,
    qday: QDAYKeys, bitcoinPublicKey: string, qdayHeight: uint64, bitcoinHeight: uint32)

  datatype Agreement = Agreement(
    version: uint16, network: string, orderID: string, tradeID: string, makerGives: string,
    qdayAmountAtomic: string, qdayUnitAtomic: string, bitcoinAmountSatoshi: int64, secretHash: string,
    maker: Hello, taker: Hello, qdayRefundHeight: uint64, bitcoinRefundHeight: uint32,
    qdayConfirmations: uint64, bitcoinConfirmations: int)

  predicate HelloValid(c: Crypto, h: Hello, network: string, orderID: string, tradeID: string, party: Party) {
    && (h.version == LEGACY_VERSION || h.version == ASYNC_VERSION)
    && h.network == network && h.orderID == orderID && h.tradeID == tradeID && h.party == party
    && IsDigest(orderID) && IsDigest(tradeID)
    && KeysValid(h.qday)
    && BitcoinKeyValid(c, h.bitcoinPublicKey)
  }

  function MakerHello(s: SignedOrder, p: AcceptancePayload): Hello {
    Hello(ASYNC_VERSION, s.order.network, s.id, p.tradeID, Maker,
          s.order.makerQDAY, s.order.makerBitcoinKey, s.order.makerQDAYHeight, s.order.makerBTCHeight)
  }

  function TakerHello(s: SignedOrder, p: AcceptancePayload): Hello {
    Hello(ASYNC_VERSION, s.order.network, s.id, p.tradeID, Taker,
          p.takerQDAY, p.takerBitcoinKey, p.takerQDAYHeight, p.takerBTCHeight)
  }

  /** parseSatoshis on digit strings: a positive signed 64-bit integer. */
  function ParseSatoshis(v: string): (r: Option<int64>)
    ensures r.Some? <==> AllDigits(v) && 0 < Value(v) < TWO_TO_63
    ensures r.Some? ==> r.value == Value(v)
  {
    if AllDigits(v) && 0 < Value(v) < TWO_TO_63 then Some(Value(v)) else None
  }

  function QDAYAtomic(o: OrderPayload): string {
    if o.give.asset == "QDAY" then o.give.atomic else o.receive.atomic
  }

  function BitcoinAtomic(o: OrderPayload): string {
    if o.give.asset == "QDAY" then o.receive.atomic else o.give.atomic
  }

  /** validateAsyncPayload: every check of the source, in its order. */
  predicate PayloadAgrees(c: Crypto, a: Agreement, s: SignedOrder, p: AcceptancePayload) {
    && a.network == s.order.network && a.orderID == s.id && a.tradeID == p.tradeID
    && a.makerGives == s.order.give.asset
    && a.qdayUnitAtomic == s.order.qdayUnitAtomic && a.secretHash == p.secretHash
    && HelloValid(c, a.maker, a.network, a.orderID, a.tradeID, Maker)
    && HelloValid(c, a.taker, a.network, a.orderID, a.tradeID, Taker)
    && a.maker == MakerHello(s, p) && a.taker == TakerHello(s, p)
    && var satoshis := ParseSatoshis(BitcoinAtomic(s.order));
    && satoshis.Some?
    && a.qdayAmountAtomic == QDAYAtomic(s.order) && a.bitcoinAmountSatoshi == satoshis.value
    && a.qdayConfirmations == 3 && a.bitcoinConfirmations == 1
    && var heights := AsyncRefundHeights(s.order, p.createdAt, p.takerQDAYHeight, p.takerBTCHeight);
    && heights.Ok?
    && a.qdayRefundHeight == heights.value.0 && a.bitcoinRefundHeight == heights.value.1
  }

  predicate ValidateAsync(c: Crypto, a: Agreement, s: SignedOrder, x: SignedAcceptance) {
    && a.version == ASYNC_VERSION && s.order.version == ASYNC_VERSION && x.acceptance.version == ASYNC_VERSION
    && AcceptanceVerified(c, x, s, x.acceptance.createdAt)
    && PayloadAgrees(c, a, s, x.acceptance)
  }

  function BuildAsyncTerms(c: Crypto, s: SignedOrder, p: AcceptancePayload): Option<Agreement> {
    if s.order.version != ASYNC_VERSION || p.version != ASYNC_VERSION then None
    else
      match ParseSatoshis(BitcoinAtomic(s.order))
      case None => None
      case Some(satoshis) =>
        var a := Agreement(
          ASYNC_VERSION, s.order.network, s.id, p.tradeID, s.order.give.asset,
          QDAYAtomic(s.order), s.order.qdayUnitAtomic, satoshis, p.secretHash,
          MakerHello(s, p), TakerHello(s, p), p.qdayRefundHeight, p.btcRefundHeight, 3, 1);
        if PayloadAgrees(c, a, s, p) then Some(a) else None
  }

  function BuildAsyncAgreement(c: Crypto, s: SignedOrder, x: SignedAcceptance): Option<Agreement> {
    if s.order.version != ASYNC_VERSION || x.acceptance.version != ASYNC_VERSION then None
    else if !AcceptanceVerified(c, x, s, x.acceptance.createdAt) then None
    else BuildAsyncTerms(c, s, x.acceptance)
  }

  /** Whether the acceptance itself names the refund heights derived from the order. */
  predicate SignedHeightsDerived(s: SignedOrder, p: AcceptancePayload) {
    AsyncRefundHeights(s.order, p.createdAt, p.takerQDAYHeight, p.takerBTCHeight) ==
    Ok((p.qdayRefundHeight, p.btcRefundHeight))
  }

  /** Both parties can only ever hold the same agreement. */
  lemma AgreementUnique(c: Crypto, s: SignedOrder, x: SignedAcceptance, a: Agreement, b: Agreement)
    requires ValidateAsync(c, a, s, x) && ValidateAsync(c, b, s, x)
    ensures a == b
  {
    var heights := AsyncRefundHeights(
      s.order, x.acceptance.createdAt, x.acceptance.takerQDAYHeight, x.acceptance.takerBTCHeight);
    assert a.qdayRefundHeight == heights.value.0 == b.qdayRefundHeight;
  }

  /** The builder's agreement is the accepted one exactly when the acceptance signs the derived
      heights: the validator itself never compares its heights with the acceptance's. */
  lemma BuilderMeetsValidator(c: Crypto, s: SignedOrder, x: SignedAcceptance, a: Agreement)
    ensures BuildAsyncAgreement(c, s, x) == Some(a) <==>
            ValidateAsync(c, a, s, x) && SignedHeightsDerived(s, x.acceptance)
  {
    if ValidateAsync(c, a, s, x) && SignedHeightsDerived(s, x.acceptance) {
      var built := Agreement(
        ASYNC_VERSION, s.order.network, s.id, x.acceptance.tradeID, s.order.give.asset,
        QDAYAtomic(s.order), s.order.qdayUnitAtomic, ParseSatoshis(BitcoinAtomic(s.order)).value, x.acceptance.secretHash,
        MakerHello(s, x.acceptance), TakerHello(s, x.acceptance),
        x.acceptance.qdayRefundHeight, x.acceptance.btcRefundHeight, 3, 1);
      assert a == built;
    }
  }

  // A validly signed order and acceptance whose refund heights are one block off.

  function Letters(c: char, n: nat): (s: string)
    ensures |s| == n && forall i :: 0 <= i < n ==> s[i] == c
  {
    seq(n, _ => c)
  }

  ghost const ACCEPTING := Crypto(_ => Letters('a', 64), (_, _, _) => true, _ => true, _ => true)

  const SAMPLE_KEYS := QDAYKeys(Letters('a', 64), Letters('a', 64), "q")

  const SAMPLE_ORDER := SignedOrder(
    OrderPayload(
      ASYNC_VERSION, "regtest", "QDAY-BTC", "1000000000000000000", Letters('a', 64), Letters('a', 64),
      Amount("QDAY", "1"), Amount("BTC", "10000"), 1000, 1600, Letters('a', 32), Letters('a', 64), SAMPLE_KEYS,
      Letters('a', 66), 10, 10),
    Letters('a', 64), Letters('a', 128))

  const SAMPLE_ACCEPTANCE := SignedAcceptance(
    AcceptancePayload(
      ASYNC_VERSION, "regtest", Letters('a', 64), Letters('a', 64), Letters('b', 64), Letters('a', 64), 1000, 1600,
      SAMPLE_KEYS, Letters('a', 66), 10, 10, Letters('a', 64), 1461, 300,
      FundingPackage("BTC", Letters('a', 64), ["aa"], 0, "")),
    Letters('a', 64), Letters('a', 128))

  lemma SampleKeysValid()
    ensures KeysValid(SAMPLE_KEYS) && MessageKeyValid(Letters('a', 64))
    ensures Letters('a', 64) != Letters('b', 64)
  {
    assert TrimSpace(SAMPLE_KEYS.address) == SAMPLE_KEYS.address by {
      assert LeadingSpace("q") == 0 && TrailingSpace("q") == 0;
    }
    assert Letters('a', 64)[0] != '0';
    assert Letters('b', 64)[0] == 'b';
  }

  lemma SampleOrderVerified()
    ensures OrderVerified(ACCEPTING, SAMPLE_ORDER, 1000)
  {
    TenThousand();
    SampleKeysValid();
  }

  lemma SampleAcceptanceValid()
    ensures AcceptanceValid(ACCEPTING, SAMPLE_ACCEPTANCE.acceptance, SAMPLE_ORDER, 1000)
  {
    hide KeysValid, MessageKeyValid;
    SampleKeysValid();
  }

  lemma SampleAcceptanceVerified()
    ensures AcceptanceVerified(ACCEPTING, SAMPLE_ACCEPTANCE, SAMPLE_ORDER, 1000)
  {
    hide OrderVerified, AcceptanceValid, SigningBytes;
    SampleOrderVerified();
    SampleAcceptanceValid();
  }

  lemma SampleHeights()
    ensures AsyncRefundHeights(SAMPLE_ORDER.order, 1000, 10, 10) == Ok((1460, 299))
  {
    BoundedHeightsExact(SAMPLE_ORDER.order, 1000, 10, 10);
  }

  const SAMPLE_AGREEMENT := Agreement(
    ASYNC_VERSION, "regtest", Letters('a', 64), Letters('a', 64), "QDAY", "1", "1000000000000000000", 10_000,
    Letters('a', 64), MakerHello(SAMPLE_ORDER, SAMPLE_ACCEPTANCE.acceptance),
    TakerHello(SAMPLE_ORDER, SAMPLE_ACCEPTANCE.acceptance), 1460, 299, 3, 1)

  lemma SampleAgrees()
    ensures PayloadAgrees(ACCEPTING, SAMPLE_AGREEMENT, SAMPLE_ORDER, SAMPLE_ACCEPTANCE.acceptance)
  {
    SampleHeights();
    SampleKeysValid();
    TenThousand();
  }

  lemma SampleRefused()
    ensures BuildAsyncAgreement(ACCEPTING, SAMPLE_ORDER, SAMPLE_ACCEPTANCE) == None
  {
    SampleHeights();
    var built := BuildAsyncAgreement(ACCEPTING, SAMPLE_ORDER, SAMPLE_ACCEPTANCE);
    if built.Some? {
      BuilderMeetsValidator(ACCEPTING, SAMPLE_ORDER, SAMPLE_ACCEPTANCE, built.value);
      assert false;
    }
  }

  /** The validator accepts the derived agreement, which the builder refuses to return. */
  lemma BuilderMayRefuseValidated()
    ensures ValidateAsync(ACCEPTING, SAMPLE_AGREEMENT, SAMPLE_ORDER, SAMPLE_ACCEPTANCE)
    ensures BuildAsyncAgreement(ACCEPTING, SAMPLE_ORDER, SAMPLE_ACCEPTANCE) == None
  {
    SampleAcceptanceVerified();
    SampleAgrees();
    SampleRefused();
  }

  lemma TenThousand()
    ensures AllDigits("10000") && Value("10000") == 10_000
  {
    assert "10000"[..4] == "1000" && "1000"[..3] == "100" && "100"[..2] == "10" && "10"[..1] == "1" && "1"[..0] == "";
    assert Value("") == 0;
    assert Value("1") == 1;
    assert Value("10") == 10;
    assert Value("100") == 100;
    assert Value("1000") == 1000;
  }

  // ----- who holds which key

  /** assetFundedBy */
  function AssetFundedBy(a: Agreement, p: Party): string {
    if p.Maker? then a.makerGives
    else if a.makerGives == "QDAY" then "BTC" else "QDAY"
  }

  /** The recipient and refund keys of the Bitcoin contract: bitcoinContract. */
  function BitcoinKeys(a: Agreement): (string, string) {
    if a.makerGives == "BTC" then (a.taker.bitcoinPublicKey, a.maker.bitcoinPublicKey)
    else (a.maker.bitcoinPublicKey, a.taker.bitcoinPublicKey)
  }

  /** The recipient and refund keys of the QDAY contract: validateAsyncTakerFunding. */
  function QDAYContractKeys(a: Agreement): (QDAYKeys, QDAYKeys) {
    if a.makerGives == "QDAY" then (a.taker.qday, a.maker.qday) else (a.maker.qday, a.taker.qday)
  }

  /** The role a party registers its QDAY contract under: registerAsyncContracts. */
  function RegistersRefund(a: Agreement, role: Party): bool {
    (role.Maker? && a.makerGives == "QDAY") || (role.Taker? && a.makerGives == "BTC")
  }

  /** In every agreement that is built or passes validation each party funds exactly what the order names for
      it, in either direction of the pair: the maker what it gives, the taker what the maker receives, as text
      on the QDAY leg and as satoshis on the other. */
  lemma EachFundsItsAmount(c: Crypto, s: SignedOrder, x: SignedAcceptance, a: Agreement, p: Party)
    requires ValidateAsync(c, a, s, x) || BuildAsyncAgreement(c, s, x) == Some(a)
    ensures
      var amount := if p.Maker? then s.order.give else s.order.receive;
      && AssetFundedBy(a, p) == amount.asset && AllDigits(amount.atomic)
      && (amount.asset == "QDAY" ==> a.qdayAmountAtomic == amount.atomic)
      && (amount.asset == "BTC" ==> a.bitcoinAmountSatoshi == Value(amount.atomic))
    ensures AssetFundedBy(a, p) == "QDAY" || AssetFundedBy(a, p) == "BTC"
    ensures AssetFundedBy(a, p) != AssetFundedBy(a, Opposite(p))
  {
    BuilderMeetsValidator(c, s, x, a);
    OrderPair(c, s, x);
  }

  /** Every agreement that passes validation says what the two parties have signed, field by field, with the
      refund heights of the exact formula. */
  lemma AgreementIsSigned(c: Crypto, s: SignedOrder, x: SignedAcceptance, a: Agreement)
    requires ValidateAsync(c, a, s, x)
    ensures a.network == s.order.network && a.orderID == s.id && a.tradeID == x.acceptance.tradeID
    ensures a.secretHash == x.acceptance.secretHash && a.makerGives == s.order.give.asset
    ensures a.maker.party == Maker && a.maker.qday == s.order.makerQDAY && a.maker.bitcoinPublicKey == s.order.makerBitcoinKey
    ensures a.maker.qdayHeight == s.order.makerQDAYHeight && a.maker.bitcoinHeight == s.order.makerBTCHeight
    ensures a.taker.party == Taker && a.taker.qday == x.acceptance.takerQDAY
    ensures a.taker.bitcoinPublicKey == x.acceptance.takerBitcoinKey
    ensures a.taker.qdayHeight == x.acceptance.takerQDAYHeight && a.taker.bitcoinHeight == x.acceptance.takerBTCHeight
    ensures x.acceptance.createdAt <= s.order.expiresAt
    ensures a.qdayRefundHeight == QDAYHeight(s.order, x.acceptance.createdAt, x.acceptance.takerQDAYHeight)
    ensures a.bitcoinRefundHeight == BitcoinHeight(s.order, x.acceptance.createdAt, x.acceptance.takerBTCHeight)
    ensures a.qdayConfirmations == 3 && a.bitcoinConfirmations == 1
  {
    hide AsyncRefundHeights, QDAYHeight, BitcoinHeight, OrderValid, AcceptanceValid, HelloValid, SignatureValid;
    HeightsExact(c, s, x.acceptance, x.acceptance.createdAt);
  }

  lemma OrderPair(c: Crypto, s: SignedOrder, x: SignedAcceptance)
    requires AcceptanceVerified(c, x, s, x.acceptance.createdAt)
    ensures PairValid(s.order.give, s.order.receive)
  {
    hide SignatureValid, KeysValid, FundingValid, LifetimeValid, PairValid;
  }

  function HelloOf(a: Agreement, p: Party): Hello {
    if p.Maker? then a.maker else a.taker
  }

  /** On each chain the refund key is the funder's and the claim key the other party's, the parties
      fund different chains, and exactly the QDAY funder registers for the refund. */
  lemma KeysFollowFunding(c: Crypto, s: SignedOrder, x: SignedAcceptance, a: Agreement, p: Party)
    requires ValidateAsync(c, a, s, x)
    ensures AssetFundedBy(a, p) != AssetFundedBy(a, Opposite(p))
    ensures AssetFundedBy(a, p) == "BTC" ==>
              BitcoinKeys(a) == (HelloOf(a, Opposite(p)).bitcoinPublicKey, HelloOf(a, p).bitcoinPublicKey)
    ensures AssetFundedBy(a, p) == "QDAY" ==>
              QDAYContractKeys(a) == (HelloOf(a, Opposite(p)).qday, HelloOf(a, p).qday)
    ensures RegistersRefund(a, p) <==> AssetFundedBy(a, p) == "QDAY"
    ensures RegistersRefund(a, p) <==> !RegistersRefund(a, Opposite(p))
    ensures AssetFundedBy(a, Taker) == s.order.receive.asset == x.acceptance.funding.asset
  {
  }
}
