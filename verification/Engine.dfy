/** The version 2 swap engine: internal/app/async_engine.go and the parts of internal/app/engine.go it
    uses. Each wallet, relay and journal call may stop the pass (Interrupted), before or after taking
    effect, so every crash point is one of its behaviours; nothing but the journal, the wallets' view
    of the chains and the history of events survives a pass. */
module Engine {
  import opened Basics
  import opened Records
  import opened Trade
  import opened Terms
  import opened SwapState
  import opened Protocol
  import opened Actions
  import opened Rounds
  import Relay
  import Outbound

  // ----- the chains as the wallets report them

  /** A claim shows the secret it was made with. */
  datatype Spend = Unspent | ClaimSpend(confirmed: bool, secret: string) | RefundSpend(confirmed: bool)

  /** One party's funding: whether its wallet or a node knows it, whether it is confirmed, what spends it,
      and whether the transaction journaled as its refund is mined. */
  datatype Leg = Leg(observed: bool, confirmed: bool, spend: Spend, refundMined: bool)

  datatype View = View(taker: Leg, maker: Leg, qdayHeight: nat, bitcoinHeight: int)

  function LegOf(v: View, p: Party): Leg {
    if p.Maker? then v.maker else v.taker
  }

  predicate SpendGrows(a: Spend, b: Spend) {
    match a
    case Unspent => true
    case ClaimSpend(c, secret) => b.ClaimSpend? && (c ==> b.confirmed) && b.secret == secret
    case RefundSpend(c) => b.RefundSpend? && (c ==> b.confirmed)
  }

  predicate LegGrows(a: Leg, b: Leg) {
    (a.observed ==> b.observed) && (a.confirmed ==> b.confirmed) && SpendGrows(a.spend, b.spend)
  }

  /** Answers that are consistent and only grow: no reorganization while the pass runs. */
  predicate Grows(a: View, b: View) {
    && LegGrows(a.taker, b.taker) && LegGrows(a.maker, b.maker)
    && a.qdayHeight <= b.qdayHeight && a.bitcoinHeight <= b.bitcoinHeight
  }

  /** The two ways to ask for a refund agree: Chain.dfy derives it for a chain that answers both. */
  predicate Coherent(v: View) {
    && (v.taker.refundMined ==> v.taker.spend == RefundSpend(true))
    && (v.maker.refundMined ==> v.maker.spend == RefundSpend(true))
  }

  /** A swap one participant has no money in any more: no wallet or node knows its funding, and too few
      blocks remain to start it. */
  datatype Dormant = Dormant(party: Party, agreement: Agreement)

  /** The leg a participant has funded itself has come to its refund height. */
  predicate OwnLegReached(r: Swap, v: View) {
    && r.agreement.Some? && FundingOf(r, r.role).Some?
    && LegReached(r.agreement.value, FundingOf(r, r.role).value.asset, v)
  }

  predicate LiesDormant(v: View, d: Dormant) {
    !LegOf(v, d.party).observed && !Open(Remaining(d.agreement, v.qdayHeight, v.bitcoinHeight))
  }

  lemma GrowsTransitive(a: View, b: View, c: View)
    requires Grows(a, b) && Grows(b, c)
    ensures Grows(a, c)
  {
  }

  predicate RefundedOn(v: View, p: Party) {
    LegOf(v, p).spend == RefundSpend(true)
  }

  predicate ClaimedOn(v: View, p: Party) {
    LegOf(v, p).spend.ClaimSpend?
  }

  predicate ClaimSettledOn(v: View, p: Party) {
    LegOf(v, p).spend.ClaimSpend? && LegOf(v, p).spend.confirmed
  }

  function OwnHeight(v: View, asset: string): int {
    if asset == "QDAY" then v.qdayHeight else v.bitcoinHeight
  }

  /** The chain of a leg has come to the refund height of the agreement. */
  predicate LegReached(a: Agreement, asset: string, v: View) {
    Reached(a, asset, OwnHeight(v, asset))
  }

  /** What a wallet answered, held against the chains as they were when it did. */
  predicate TrueOf(e: Event, v: View) {
    match e
    case SawFunding(p, confirmed) => confirmed ==> LegOf(v, p).confirmed
    case SawPool(observed) => observed == v.taker.observed
    case SawClaim(p, c) => c.found ==> ClaimedOn(v, Opposite(p)) && (c.confirmed <==> ClaimSettledOn(v, Opposite(p)))
    case SawRefund(p, refunded) => refunded ==> RefundedOn(v, p) || LegOf(v, p).refundMined
    case SawWindow(qdayHeight, bitcoinHeight) => qdayHeight == v.qdayHeight && bitcoinHeight == v.bitcoinHeight
    case SawHeight(asset, height) => height == if asset == "QDAY" then v.qdayHeight else v.bitcoinHeight
    case _ => true
  }

  /** A history with the chains as they were at each of its events. */
  ghost predicate Reported(h: seq<Event>, looks: seq<View>) {
    |looks| == |h| && forall i :: 0 <= i < |h| ==> TrueOf(h[i], looks[i])
  }

  lemma ReportedSnoc(h: seq<Event>, looks: seq<View>, e: Event, v: View)
    requires Reported(h, looks) && TrueOf(e, v)
    ensures Reported(h + [e], looks + [v])
  {
    hide TrueOf;
  }

  // ----- how far a pass still is from coming to rest

  /** An upper bound on the loop iterations still needed when answers only grow. */
  function Rank(r: Swap, v: View): nat {
    var funded, bothFunded := v.taker.confirmed, v.taker.confirmed && v.maker.confirmed;
    var claimed := ClaimedOn(v, Maker);
    match r.phase
    case AsyncTakerFunding => 10
    case AsyncTakerFunded => if funded then 9 else 11
    case AsyncMakerFunding => if funded then 8 else 11
    case AsyncMakerFunded => if bothFunded then 7 else if funded then 9 else 11
    case AsyncTakerClaiming => if bothFunded then 6 else if funded then 9 else 11
    case AsyncTakerClaimed => if claimed && funded then 5 else 12
    case AsyncMakerClaiming => if claimed && funded then 4 else if claimed then 11 else 12
    case Complete => if ClaimSettledOn(v, Maker) && ClaimSettledOn(v, Taker) then 1 else 13
    case WaitingForRefund => 3
    case Refunding => 2
    case Refunded => if RefundedOn(v, RefundLeg(r)) then 1 else 3
    case _ => 1
  }

  lemma RankFalls(r: Swap, v: View, w: View)
    requires Grows(v, w)
    ensures Rank(r, w) <= Rank(r, v) <= 13
  {
  }

  /** Losing a confirmation sends the swap back, but never to where it came from. */
  lemma LostFundingIsCloser(r: Swap, v: View, s: Swap, w: View)
    requires r.phase in {AsyncMakerFunded, AsyncTakerClaiming}
    ensures !v.taker.confirmed && s.phase == AsyncTakerFunding ==> Rank(s, w) < Rank(r, v)
    ensures !v.maker.confirmed && s.phase == AsyncMakerFunding && w.taker.confirmed ==> Rank(s, w) < Rank(r, v)
  {
  }

  lemma LostClaimIsCloser(r: Swap, v: View, s: Swap, w: View)
    ensures r.phase in {AsyncTakerClaimed, AsyncMakerClaiming} && !ClaimedOn(v, Maker) && s.phase == AsyncTakerClaiming ==>
              Rank(s, w) < Rank(r, v)
    ensures r.phase == Complete && !ClaimSettledOn(v, Maker) && s.phase == AsyncTakerClaiming ==>
              Rank(s, w) < Rank(r, v)
    ensures r.phase == Complete && !ClaimSettledOn(v, Taker) && s.phase == AsyncMakerClaiming ==>
              Rank(s, w) < Rank(r, v)
  {
  }

  lemma ForwardIsCloser(r: Swap, v: View, s: Swap, w: View)
    requires w.taker.confirmed
    ensures r.phase == AsyncTakerFunding && s.phase == AsyncTakerFunded ==> Rank(s, w) < Rank(r, v)
    ensures r.phase == AsyncMakerFunded && w.maker.confirmed && s.phase == AsyncTakerClaiming ==>
              Rank(s, w) < Rank(r, v)
    ensures r.phase == AsyncTakerClaiming && ClaimedOn(w, Maker) && s.phase == AsyncTakerClaimed ==>
              Rank(s, w) < Rank(r, v)
  {
  }

  lemma FundingMovesCloser(r: Swap, v: View, s: Swap, w: View)
    requires r.phase == AsyncMakerFunding
    ensures !v.taker.confirmed && s.phase == AsyncTakerFunding ==> Rank(s, w) < Rank(r, v)
    ensures s.phase == AsyncMakerFunded && w.taker.confirmed && w.maker.confirmed ==> Rank(s, w) < Rank(r, v)
  {
  }

  lemma ClaimedForwardIsCloser(r: Swap, v: View, s: Swap, w: View)
    requires Grows(v, w) && ClaimedOn(w, Maker) && r.phase == AsyncTakerClaimed && s.phase == AsyncMakerClaiming
    ensures Rank(s, w) < Rank(r, v)
  {
  }

  lemma ClaimingEndsCloser(r: Swap, v: View, s: Swap, w: View)
    requires r.phase == AsyncMakerClaiming
    ensures !v.taker.confirmed && s.phase == AsyncTakerFunding ==> Rank(s, w) < Rank(r, v)
    ensures s.phase == Complete && ClaimSettledOn(w, Maker) && ClaimSettledOn(w, Taker) ==> Rank(s, w) < Rank(r, v)
  {
  }

  lemma RefundIsCloser(r: Swap, v: View, s: Swap, w: View)
    requires Running(r.phase) && s.phase in {WaitingForRefund, Expired}
    ensures Rank(s, w) < Rank(r, v)
  {
  }

  // ----- messages and outcomes

  /** A decrypted protocol message. Version 2 swaps exchange only the last two kinds. */
  datatype PeerMessage =
    | HelloMessage
    | AgreementMessage
    | AckMessage(hash: string)
    | FundingMessage(notice: Notice)
    | TemplateMessage(template: Template)

  /** How one round of the loop ends. */
  datatype Round = Again | Rest | Stopped(error: Error) | LegacyPhase

  datatype Outcome = Quiet | Failed(error: Error) | LegacyPhaseReached | LimitReached

  /** Why a confirmation-dependent phase is left backwards; the text is kept in the record. */
  datatype Loss =
    | TakerFundingLost
    | TakerFundingLostBeforeMaker
    | MakerFundingLost
    | TakerFundingLostBeforeClaim
    | MakerFundingLostBeforeClaim
    | TakerClaimLost
    | TakerFundingLostBeforeMakerClaim
    | TakerClaimUnsettled
    | MakerClaimUnsettled
    | RefundLost

  function LossText(loss: Loss): string {
    match loss
    case TakerFundingLost => "taker funding lost confirmations"
    case TakerFundingLostBeforeMaker => "taker funding lost confirmations before maker funding"
    case MakerFundingLost => "maker funding lost confirmations"
    case TakerFundingLostBeforeClaim => "taker funding lost before claim"
    case MakerFundingLostBeforeClaim => "maker funding lost before claim"
    case TakerClaimLost => "taker claim lost after reorg"
    case TakerFundingLostBeforeMakerClaim => "taker funding lost before maker claim"
    case TakerClaimUnsettled => "taker claim lost confirmations"
    case MakerClaimUnsettled => "maker claim lost confirmations"
    case RefundLost => "refund lost confirmations"
  }

  const TEMPLATE_KEY := "maker-claim-template"
  const ITERATIONS: nat := 16

  datatype ActionKind =
    | MakerFundingAction | MakerClaimAction | TakerClaimAction | MakerRefundAction | TakerRefundAction | MakerClaimProxy

  function KindText(kind: ActionKind): string {
    match kind
    case MakerFundingAction => "maker-funding"
    case MakerClaimAction => "maker-claim"
    case TakerClaimAction => "taker-claim"
    case MakerRefundAction => "maker-refund"
    case TakerRefundAction => "taker-refund"
    case MakerClaimProxy => "maker-claim-proxy"
  }

  function ActionID(id: string, kind: ActionKind): string {
    id + ":" + KindText(kind)
  }

  /** No two actions share an action ID, neither of one swap nor of two: trade IDs have one length. */
  lemma ActionsDiffer(id: string, a: ActionKind, other: string, b: ActionKind)
    requires |id| == |other|
    ensures ActionID(id, a) == ActionID(other, b) <==> id == other && a == b
  {
    assert ActionID(id, a)[|id| + 1..] == KindText(a) && ActionID(other, b)[|other| + 1..] == KindText(b);
    assert ActionID(id, a)[..|id|] == id && ActionID(other, b)[..|other|] == other;
    KindsDiffer(a, b);
  }

  lemma KindsDiffer(a: ActionKind, b: ActionKind)
    ensures KindText(a) == KindText(b) <==> a == b
  {
    if |KindText(a)| == |KindText(b)| && a != b {
      assert KindText(a)[0] != KindText(b)[0];
    }
  }

  predicate NoticeValid(n: Notice) {
    && IsDigest(n.transactionID)
    && (n.asset == "QDAY" || n.asset == "BTC")
    && (n.asset == "BTC" <==> n.raw != "")
  }

  /** asyncTakerFundingNotice: what the signed acceptance says about the taker's funding. */
  function TakerNotice(f: FundingPackage): Notice
    requires f.asset == "BTC" ==> |f.rawTransactions| == 1
  {
    Notice(Taker, f.asset, f.transactionID, if f.asset == "BTC" then f.rawTransactions[0] else "")
  }

  /** What a message of the counterparty has left in the record once it was handled. */
  predicate Taken(m: PeerMessage, r: Swap) {
    match m
    case HelloMessage => true
    case AgreementMessage => false
    case AckMessage(hash) => r.role.Maker? && r.secretHash != "" && hash == r.agreementHash
    case FundingMessage(n) =>
      && n.party == Opposite(r.role) && FundingOf(r, n.party) == Some(n)
      && r.agreement.Some? && n.asset == AssetFundedBy(r.agreement.value, n.party)
    case TemplateMessage(t) =>
      && r.role.Taker? && r.makerClaimTemplate == Some(t) && r.secretHash != ""
      && r.takerFunding.Some? && t.asset == r.takerFunding.value.asset && t.fundingTransactionID == r.takerFunding.value.transactionID
  }

  /** It stays there, whatever else is journaled. */
  lemma TakenLater(m: PeerMessage, r: Swap, s: Swap)
    requires Taken(m, r) && Extends(r, s) && r.secretHash != ""
    ensures Taken(m, s)
  {
  }

  lemma StillTaken(messages: seq<PeerMessage>, r: Swap, s: Swap)
    requires Extends(r, s) && r.secretHash != "" && forall k :: 0 <= k < |messages| ==> Taken(messages[k], r)
    ensures forall k :: 0 <= k < |messages| ==> Taken(messages[k], s)
  {
    hide Taken, Extends;
    forall k | 0 <= k < |messages|
      ensures Taken(messages[k], s)
    {
      TakenLater(messages[k], r, s);
    }
  }

  lemma TakerNoticeSays(f: FundingPackage)
    requires f.asset == "BTC" ==> |f.rawTransactions| == 1
    ensures
      var n := TakerNotice(f);
      && n.party == Taker && n.asset == f.asset && n.transactionID == f.transactionID
      && (n.asset == "BTC" ==> f.rawTransactions == [n.raw]) && (n.asset != "BTC" ==> n.raw == "")
  {
  }

  /** Only the outbox and the delivery of the template changed. */
  predicate OnlyMessages(a: State, b: State) {
    && b.rec == a.rec.(sentMessages := b.rec.sentMessages) && MessagesKept(a.rec.sentMessages, b.rec.sentMessages)
    && b.proxyReady == a.proxyReady
    && b.seen == a.seen.(templateDelivered := a.seen.templateDelivered || b.seen.templateDelivered)
  }

  lemma StillFunded(r: Swap)
    ensures forall secret :: LocallyFunded(r.(revealedSecret := secret)) == LocallyFunded(r)
  {
  }

  /** The key this participant signs its messages with. */
  function OwnKey(r: Swap): string {
    if r.role.Maker? then r.order.order.makerPublicKey else r.acceptance.acceptance.takerPublicKey
  }

  function PeerKey(r: Swap): string {
    if r.role.Maker? then r.acceptance.acceptance.takerPublicKey else r.order.order.makerPublicKey
  }

  /** An envelope of this participant to its counterparty, about this trade. */
  predicate FromHere(r: Swap, m: SignedMessage) {
    var maker, taker, p := r.order.order.makerPublicKey, r.acceptance.acceptance.takerPublicKey, m.message;
    && p.network == r.order.order.network && p.orderID == r.order.id && p.tradeID == r.id
    && (r.role.Maker? ==> p.senderPublicKey == maker && p.recipientPublicKey == taker)
    && (r.role.Taker? ==> p.senderPublicKey == taker && p.recipientPublicKey == maker)
  }

  /** Some state of the relay accepts this very envelope: Relay.Store.PublishMessage. */
  ghost predicate RelayTook(c: Crypto, m: SignedMessage) {
    exists db: Relay.Db, now: int :: Relay.Sent(c, db, m, now).Ok?
  }

  /** The envelope a protocol step is bound to. */
  predicate BoundTo(sent: map<string, string>, messages: map<string, SignedMessage>, key: string, m: SignedMessage) {
    key in sent && sent[key] in messages && (messages[sent[key]] == m || sent[key] == m.id)
  }

  predicate Unbound(r: Swap, key: string) {
    key !in r.sentMessages || r.sentMessages[key] == ""
  }

  /** What saving an envelope leaves: the step bound to it, or to the one it was bound to before. */
  lemma OutboundSaved(c: Crypto, box: Outbox, id: string, key: string, m: SignedMessage)
    requires SaveOutbound(c, box, id, key, m).Ok?
    ensures id in box.trades
    ensures
      var (after, bound) := SaveOutbound(c, box, id, key, m).value;
      && id in after.trades && after.trades == box.trades[id := after.trades[id]]
      && after.trades[id] == box.trades[id].(sentMessages := after.trades[id].sentMessages)
      && MessagesKept(box.trades[id].sentMessages, after.trades[id].sentMessages)
      && BoundTo(after.trades[id].sentMessages, after.messages, key, bound)
      && (Unbound(box.trades[id], key) ==> bound == m)
  {
    hide MessageVerified;
  }

  lemma MessagesKeptRefl(m: map<string, string>)
    ensures MessagesKept(m, m)
  {
  }

  lemma MessagesLeave(a: State, b: State)
    requires OnlyMessages(a, b)
    ensures b.rec.makerFunding == a.rec.makerFunding && b.rec.makerClaimTemplate == a.rec.makerClaimTemplate
    ensures b.seen.taker == a.seen.taker && (a.seen.templateDelivered ==> b.seen.templateDelivered)
  {
  }

  lemma CurrentAfterMessages(c: Crypto, record: Swap, a: State, b: State)
    requires Current(record, a) && OnlyMessages(a, b)
    ensures Current(record, b)
  {
  }

  /** The journal knows of no broadcast of the maker's Bitcoin funding. */
  predicate FundingUnsent(actions: map<string, Action>, id: string) {
    var actionID := ActionID(id, MakerFundingAction);
    actionID in actions ==> actions[actionID].status == Prepared
  }

  /** A running swap whose participant's own funding is nowhere recorded as sent. */
  predicate IdleSwap(r: Swap, actions: map<string, Action>, id: string) {
    Running(r.phase) && r.agreement.Some? && !LocallyFunded(r) && FundingUnsent(actions, id)
  }

  predicate TermsStand(c: Crypto, r: Swap) {
    r.agreement.Some? && ValidateAsync(c, r.agreement.value, r.order, r.acceptance)
  }

  predicate ExpiredFrom(before: Swap, after: Swap) {
    before.phase == AsyncTakerFunding && after == before.(phase := Expired, lastError := "")
  }

  /** The errors a dormant swap can meet; each leaves it as it was. */
  predicate DormantError(c: Crypto, r: Swap, e: Error) {
    match e
    case Interrupted => true
    case Rejected => !TermsStand(c, r)
    case InvalidAdvance => r.phase != AsyncTakerFunding
    case _ => false
  }

  /** How a round over a dormant swap ends: expired from the first phase, refused from any other, or
      stopped; it never waits. */
  predicate DormantRound(c: Crypto, before: Swap, after: Swap, round: Round) {
    match round
    case Again => ExpiredFrom(before, after)
    case Stopped(e) => after == before && DormantError(c, before, e)
    case _ => false
  }

  /** The same for a pass. */
  predicate DormantPass(c: Crypto, before: Swap, after: Swap, outcome: Outcome) {
    match outcome
    case Quiet => ExpiredFrom(before, after)
    case Failed(e) => (after == before && DormantError(c, before, e)) || (e == Interrupted && ExpiredFrom(before, after))
    case _ => false
  }

  /** Past the first phase only a maker can still be without money of its own, in one of two phases. */
  lemma IdleIsMaker(c: Crypto, s: State)
    requires Evidence(c, s) && Running(s.rec.phase) && !LocallyFunded(s.rec) && s.rec.phase != AsyncTakerFunding
    ensures s.rec.role.Maker? && s.rec.makerFunding.None? && s.rec.phase in {AsyncTakerFunded, AsyncMakerFunding}
  {
    hide Opens;
  }

  /** The own secret, the hash of an agreement, and completing a claim template on a funding with a secret:
      what Spends.CompleteClaimTemplate does on Bitcoin. */
  datatype Tools = Tools(
    secret: string, hashAgreement: Agreement -> string, complete: (Agreement, Notice, Template, string) -> Option<string>)

  /** A history that ends with a round from k on which came to rest: it did what the phase of its record asks
      for, and what it saw leads nowhere else. */
  ghost predicate CameToRest(c: Crypto, origin: Swap, h: seq<Event>, k: nat) {
    && 0 < k <= |h| && h[k - 1] == Iteration && Accepted(c, origin, h[..k]) && Accepted(c, origin, h)
    && var r, s := Replay(c, origin, h[..k]).value.rec, Replay(c, origin, h).value;
       s.rec.phase == r.phase && Decision(r.phase, s) == None && Does(r, h[k..])
  }

  class Engine {
    const crypto: Crypto
    const journal: Journal
    const id: string
    const tools: Tools
    /** Whether the wallets' answers stay consistent and only grow during this pass. */
    const steady: bool
    /** Given, its condition lasts through this pass once it holds. */
    const dormant: Option<Dormant>
    ghost const origin: Swap
    /** What had happened when the pass began. */
    ghost const start: seq<Event>
    /** The other swaps in the journal. */
    ghost const others: map<string, Swap>
    var view: View
    ghost var history: seq<Event>
    /** The chains as they were at each event of the history. */
    ghost var looks: seq<View>
    ghost var state: State
    /** A point this pass has left behind. */
    ghost var mark: seq<Event>

    ghost predicate Recorded()
      reads this
    {
      && Fresh(origin) && Replay(crypto, origin, history) == Some(state) && Evidence(crypto, state)
      && !state.rec.relayMatchPending && start <= history && Reported(history, looks)
      && mark <= history
    }

    ghost predicate Valid()
      reads this, journal
    {
      && Recorded() && journal.crypto == crypto
      && id in journal.trades && journal.trades[id] == state.rec && state.rec.id == id
      && journal.trades - {id} == others
      && (state.proxyReady <==> ActionID(id, MakerClaimProxy) in journal.actions)
      && (steady ==> Coherent(view))
    }

    lemma ValidKnows()
      requires Valid()
      ensures Evidence(crypto, state) && id in journal.trades && journal.trades[id] == state.rec
    {
    }

    /** What every step keeps about the wallets' answers. */
    ghost predicate Drifted(before: View, after: View) {
      && (steady ==> Grows(before, after) && (Coherent(before) ==> Coherent(after)))
      && (dormant.Some? && LiesDormant(before, dormant.value) ==> LiesDormant(after, dormant.value))
    }

    /** What was seen confirmed stays so while the answers are consistent. */
    lemma StaysConfirmed(a: View, b: View)
      requires Drifted(a, b)
      ensures steady && a.taker.confirmed ==> b.taker.confirmed
      ensures steady && a.maker.confirmed ==> b.maker.confirmed
    {
    }

    lemma WasUnconfirmed(a: View, b: View)
      requires Drifted(a, b)
      ensures steady && !b.taker.confirmed ==> !a.taker.confirmed
      ensures steady && !b.maker.confirmed ==> !a.maker.confirmed
    {
    }

    lemma WasUnclaimed(a: View, b: View)
      requires Drifted(a, b)
      ensures steady && !ClaimedOn(b, Maker) ==> !ClaimedOn(a, Maker)
    {
    }

    lemma WasUnsettled(a: View, b: View)
      requires Drifted(a, b)
      ensures steady && !ClaimSettledOn(b, Maker) ==> !ClaimSettledOn(a, Maker)
      ensures steady && !ClaimSettledOn(b, Taker) ==> !ClaimSettledOn(a, Taker)
    {
    }

    lemma StaysSettled(a: View, b: View)
      requires Drifted(a, b)
      ensures steady && ClaimSettledOn(a, Maker) ==> ClaimSettledOn(b, Maker)
    {
    }

    lemma DriftGrows(a: View, b: View)
      requires steady && Drifted(a, b)
      ensures Grows(a, b)
    {
    }

    lemma DriftReflexive(v: View)
      ensures Drifted(v, v)
    {
    }

    lemma DriftTransitive(a: View, b: View, c: View)
      requires Drifted(a, b) && Drifted(b, c)
      ensures Drifted(a, c)
    {
      if steady {
        GrowsTransitive(a, b, c);
      }
    }

    constructor (crypto: Crypto, journal: Journal, id: string, tools: Tools,
                 steady: bool, dormant: Option<Dormant>, view: View, ghost origin: Swap, ghost history: seq<Event>,
                 ghost looks: seq<View>)
      requires Reported(history, looks)
      requires Fresh(origin) && Accepted(crypto, origin, history) && journal.crypto == crypto && (steady ==> Coherent(view))
      requires id in journal.trades && id == journal.trades[id].id
      requires Replay(crypto, origin, history).value.rec == journal.trades[id] && !journal.trades[id].relayMatchPending
      requires Replay(crypto, origin, history).value.proxyReady <==> ActionID(id, MakerClaimProxy) in journal.actions
      ensures Valid() && this.history == history && this.origin == origin && this.crypto == crypto
      ensures this.journal == journal && this.id == id && this.steady == steady && this.dormant == dormant && this.view == view
      ensures start == history && others == journal.trades - {id} && this.looks == looks
    {
      EvidenceAlways(crypto, origin, history);
      this.crypto, this.journal, this.id, this.tools := crypto, journal, id, tools;
      this.steady, this.dormant, this.view := steady, dormant, view;
      this.origin, this.history, this.start, this.others := origin, history, history, journal.trades - {id};
      this.looks, this.mark := looks, history;
      this.state := Replay(crypto, origin, history).value;
    }

    ghost method Log(e: Event)
      requires Recorded() && Allowed(crypto, state, e) && TrueOf(e, view)
      modifies this`history, this`looks, this`state
      ensures Recorded() && state == Next(old(state), e) && history == old(history) + [e]
    {
      hide Allowed, Evidence, Next, Reported, TrueOf;
      ReplaySnoc(crypto, origin, history, e);
      StepKeepsEvidence(crypto, state, e);
      ReleasedStays(crypto, state, e);
      ReportedSnoc(history, looks, e, view);
      history, looks, state := history + [e], looks + [view], Next(state, e);
    }

    /** The chains move on between any two calls. */
    method Drift()
      modifies this`view
      ensures Drifted(old(view), view)
    {
      var next: View := *;
      var consistent := !steady || (Grows(view, next) && Coherent(next));
      if consistent && (dormant.None? || LiesDormant(next, dormant.value)) {
        view := next;
      }
    }

    // ----- journal writes

    /** One of the journal's write-once setters. */
    method Set(u: SwapState.Update) returns (r: Result<(), Error>)
      requires Valid()
      requires Apply(crypto, state.rec, u).Ok? ==> MaySet(crypto, state, Apply(crypto, state.rec, u).value)
      modifies journal`trades, this`history, this`looks, this`state
      ensures Valid()
      ensures r.Ok? ==>
                && Apply(crypto, old(state).rec, u) == Ok(state.rec) && state == old(state).(rec := state.rec)
                && MaySet(crypto, old(state), state.rec)
      ensures r.Err? ==> state == old(state)
      ensures history == old(history) + if r.Ok? then [Wrote(state.rec)] else []
      ensures r.Err? ==> r == Err(Interrupted) || Apply(crypto, old(state).rec, u) == Err(r.error)
    {
      hide Replay, Evidence, MaySet, Apply;
      var updated := journal.UpdateSwap(id, u);
      if updated.Err? {
        return Err(updated.error);
      }
      SetKeepsIdentity(crypto, state, updated.value);
      Log(Wrote(updated.value));
      return Ok(());
    }

    /** Journal.Advance: refuses an edge the phase graph does not have. */
    method Advance(expected: Phase, next: Phase) returns (r: Result<(), Error>)
      requires Valid() && state.rec.phase == expected && (ValidAdvance(expected, next) ==> MayAdvance(state, next))
      modifies journal`trades, this`history, this`looks, this`state
      ensures Valid()
      ensures r.Ok? ==>
                ValidAdvance(expected, next) && state == old(state).(rec := old(state).rec.(phase := next, lastError := ""))
      ensures r.Err? ==> state == old(state)
      ensures history == old(history) + if r.Ok? then [Wrote(state.rec)] else []
      ensures r.Ok? || r == Err(if ValidAdvance(expected, next) then Interrupted else InvalidAdvance)
    {
      hide Replay, Evidence, MaySet, MayRewind, MayAdvance, ValidAdvance;
      if !ValidAdvance(expected, next) {
        return Err(InvalidAdvance);
      }
      var updated := journal.UpdateSwap(id, UAdvance(expected, next));
      if updated.Err? {
        return Err(updated.error);
      }
      Log(Wrote(updated.value));
      return Ok(());
    }

    /** Journal.RewindAfterReorg */
    method Rewind(expected: Phase, next: Phase, reason: Loss) returns (r: Result<(), Error>)
      requires Valid() && state.rec.phase == expected && ValidRewind(expected, next) && MayRewind(state, next)
      modifies journal`trades, this`history, this`looks, this`state
      ensures Valid()
      ensures r.Ok? ==>
                state == old(state).(rec := old(state).rec.(
                  phase := next, lastError := LossText(reason),
                  takerFundingSubmitted := old(state).rec.takerFundingSubmitted && next != AsyncTakerFunding))
      ensures r.Err? ==> state == old(state)
      ensures history == old(history) + if r.Ok? then [Wrote(state.rec)] else []
    {
      hide Replay, Evidence, MaySet, MayRewind, MayAdvance, ValidRewind, LossText;
      var updated := journal.UpdateSwap(id, URewind(expected, next, LossText(reason)));
      if updated.Err? {
        return Err(updated.error);
      }
      Log(Wrote(updated.value));
      return Ok(());
    }

    // ----- observations

    /** partyFundingConfirmedForRecord */
    method ObserveFunding(record: Swap, party: Party) returns (r: Result<bool, Error>)
      requires Valid()
      modifies this`view, this`history, this`looks, this`state
      ensures Valid() && Drifted(old(view), view)
      ensures r.Ok? ==> state == old(state).(seen := WithFunding(old(state).seen, party, r.value))
      ensures r.Ok? ==> r.value == (FundingOf(record, party).Some? && LegOf(view, party).confirmed)
      ensures r.Err? ==> state == old(state)
      ensures history == old(history) + if r.Ok? then [SawFunding(party, r.value)] else []
    {
      hide Replay, Evidence;
      Drift();
      var stopped: bool := *;
      if stopped {
        return Err(Interrupted);
      }
      var confirmed := FundingOf(record, party).Some? && LegOf(view, party).confirmed;
      Log(SawFunding(party, confirmed));
      return Ok(confirmed);
    }

    /** fundingObservedForRecord, for the taker's signed funding */
    method ObservePool() returns (r: Result<bool, Error>)
      requires Valid()
      modifies this`view, this`history, this`looks, this`state
      ensures Valid() && Drifted(old(view), view)
      ensures r.Ok? ==>
                state == old(state).(seen := old(state).seen.(pool := Some(r.value))) && r.value == view.taker.observed
      ensures r.Err? ==> r == Err(Interrupted) && state == old(state)
      ensures history == old(history) + if r.Ok? then [SawPool(r.value)] else []
    {
      hide Replay, Evidence;
      Drift();
      var stopped: bool := *;
      if stopped {
        return Err(Interrupted);
      }
      Log(SawPool(view.taker.observed));
      return Ok(view.taker.observed);
    }

    /** observeClaim: the claim of one party spends the other's funding */
    method ObserveClaim(record: Swap, claimant: Party) returns (r: Result<(ClaimView, string), Error>)
      requires Valid()
      modifies this`view, this`history, this`looks, this`state
      ensures Valid() && Drifted(old(view), view)
      ensures r.Ok? ==> state == old(state).(seen := WithClaim(old(state).seen, claimant, r.value.0))
      ensures r.Ok? ==>
                r.value.0.found == (FundingOf(record, Opposite(claimant)).Some? && ClaimedOn(view, Opposite(claimant)))
      ensures r.Ok? && r.value.0.found ==>
                && r.value.0.confirmed == ClaimSettledOn(view, Opposite(claimant))
                && r.value.1 == LegOf(view, Opposite(claimant)).spend.secret
      ensures r.Err? ==> state == old(state)
      ensures history == old(history) + if r.Ok? then [SawClaim(claimant, r.value.0)] else []
    {
      hide Replay, Evidence;
      Drift();
      var stopped: bool := *;
      if stopped {
        return Err(Interrupted);
      }
      var funder := Opposite(claimant);
      var v := ClaimView(false, false);
      var revealed := "";
      if FundingOf(record, funder).Some? && ClaimedOn(view, funder) {
        v, revealed := ClaimView(true, ClaimSettledOn(view, funder)), LegOf(view, funder).spend.secret;
      }
      Log(SawClaim(claimant, v));
      return Ok((v, revealed));
    }

    /** refundConfirmed, for a funding that has a notice */
    method ObserveRefund(funder: Party) returns (r: Result<bool, Error>)
      requires Valid()
      modifies this`view, this`history, this`looks, this`state
      ensures Valid() && Drifted(old(view), view)
      ensures r.Ok? ==>
                state == old(state).(seen := WithRefund(old(state).seen, funder, r.value)) && r.value == RefundedOn(view, funder)
      ensures r.Err? ==> state == old(state)
      ensures history == old(history) + if r.Ok? then [SawRefund(funder, r.value)] else []
    {
      hide Replay, Evidence;
      Drift();
      var stopped: bool := *;
      if stopped {
        return Err(Interrupted);
      }
      var refunded := RefundedOn(view, funder);
      Log(SawRefund(funder, refunded));
      return Ok(refunded);
    }

    /** ensureFundingWindows: Ok says whether both chains are far enough from the refund heights */
    method EnsureFundingWindows(a: Agreement) returns (r: Result<bool, Error>)
      requires Valid() && state.rec.agreement == Some(a)
      modifies this`view, this`history, this`looks, this`state
      ensures Valid() && Drifted(old(view), view)
      ensures r.Ok? ==>
                (r.value <==> view.qdayHeight + 360 <= a.qdayRefundHeight && view.bitcoinHeight + 36 <= a.bitcoinRefundHeight)
      ensures r.Ok? ==>
                && state == old(state).(seen := old(state).seen.(window := Some(Remaining(a, view.qdayHeight, view.bitcoinHeight))))
                && r.value == Open(Remaining(a, view.qdayHeight, view.bitcoinHeight))
      ensures r.Err? ==> r == Err(Interrupted) && state == old(state)
      ensures history == old(history) + if r.Ok? then [SawWindow(view.qdayHeight, view.bitcoinHeight)] else []
    {
      hide Replay, Evidence;
      Drift();
      var stopped: bool := *;
      if stopped || view.bitcoinHeight < 0 {
        return Err(Interrupted);
      }
      OpenInHeights(a, view.qdayHeight, view.bitcoinHeight);
      Log(SawWindow(view.qdayHeight, view.bitcoinHeight));
      return Ok(Open(Remaining(a, view.qdayHeight, view.bitcoinHeight)));
    }

    /** The height check of maybeStartRefund on the chain of the own leg. */
    method ObserveDue(a: Agreement, notice: Notice) returns (r: Result<bool, Error>)
      requires Valid() && state.rec.agreement == Some(a) && FundingOf(state.rec, state.rec.role) == Some(notice)
      modifies this`view, this`history, this`looks, this`state
      ensures Valid() && Drifted(old(view), view)
      ensures r.Ok? ==> (r.value <==> LegReached(a, notice.asset, view))
      ensures r.Ok? ==> state == old(state).(seen := old(state).seen.(due := Some(r.value)))
      ensures r.Err? ==> state == old(state)
      ensures history == old(history) + if r.Ok? then [SawHeight(notice.asset, OwnHeight(view, notice.asset))] else []
    {
      hide Replay, Evidence;
      Drift();
      var stopped: bool := *;
      if stopped {
        return Err(Interrupted);
      }
      var height := if notice.asset == "QDAY" then view.qdayHeight else view.bitcoinHeight;
      Log(SawHeight(notice.asset, height));
      return Ok(IsDue(a, notice.asset, height));
    }

    // ----- messages to the counterparty

    /** sendProtocolMessage: journal the envelope once, then hand it to the relay. */
    method SendProtocolMessage(record: Swap, key: string) returns (r: Result<(), Error>)
      requires Valid() && (key == TEMPLATE_KEY ==> state.rec.makerClaimTemplate.Some?)
      modifies journal`trades, journal`messages, this`view, this`history, this`looks, this`state
      ensures Valid() && Drifted(old(view), view) && OnlyMessages(old(state), state)
      ensures r.Ok? && key == TEMPLATE_KEY ==> state.seen.templateDelivered
      ensures r.Ok? ==>
                var sent := if Unbound(record, key) then state.rec.sentMessages else record.sentMessages;
                exists m :: BoundTo(sent, journal.messages, key, m) && RelayTook(crypto, m)
      ensures r.Ok? ==>
                old(history) < history && history[|history| - 1] == if key == TEMPLATE_KEY then TemplateDelivered else NoticeDelivered
    {
      hide Replay, Evidence, MessagesKept, RelayTook;
      MessagesKeptRefl(state.rec.sentMessages);
      var envelope :- EnvelopeFor(record, key);
      ghost var before := history;
      r := HandToRelay(envelope, key == TEMPLATE_KEY);
    }

    /** Its delivery; the relay may have taken it although the answer is lost. */
    method HandToRelay(m: SignedMessage, template: bool) returns (r: Result<(), Error>)
      requires Valid() && (template ==> state.rec.makerClaimTemplate.Some?)
      modifies this`view, this`history, this`looks, this`state
      ensures Valid() && Drifted(old(view), view)
      ensures || state == old(state)
              || (template && state == old(state).(seen := old(state).seen.(templateDelivered := true)))
      ensures r.Ok? ==>
                && RelayTook(crypto, m) && (template ==> state.seen.templateDelivered)
                && history == old(history) + [if template then TemplateDelivered else NoticeDelivered]
    {
      hide Replay, Evidence, RelayTook;
      Drift();
      var taken: bool := RelayTakes(m);
      if !taken {
        return Err(Interrupted);
      }
      Log(if template then TemplateDelivered else NoticeDelivered);
      var lost: bool := *;
      return if lost then Err(Interrupted) else Ok(());
    }

    /** The relay's answer, whatever state it is in by then; the request or the answer may be lost. */
    method RelayTakes(m: SignedMessage) returns (taken: bool)
      ensures taken ==> RelayTook(crypto, m)
    {
      hide Relay.Sent;
      var stopped: bool := *;
      if stopped {
        return false;
      }
      var db: Relay.Db, now: int := *, *;
      return Relay.Sent(crypto, db, m, now).Ok?;
    }

    /** The envelope the record names for the step, or one journaled now. */
    method EnvelopeFor(record: Swap, key: string) returns (r: Result<SignedMessage, Error>)
      requires Valid()
      modifies journal`trades, journal`messages, this`history, this`looks, this`state
      ensures Valid() && OnlyMessages(old(state), state) && state.seen == old(state).seen
      ensures r.Ok? ==>
                BoundTo(if Unbound(record, key) then state.rec.sentMessages else record.sentMessages, journal.messages, key, r.value)
      ensures old(history) <= history
      ensures r.Ok? && Unbound(record, key) && Unbound(old(state).rec, key) ==> FromHere(state.rec, r.value)
    {
      hide Replay, Evidence, MessagesKept;
      MessagesKeptRefl(state.rec.sentMessages);
      if !Unbound(record, key) {
        var existing := record.sentMessages[key];
        return if existing in journal.messages then Ok(journal.messages[existing]) else Err(NotFound);
      }
      var n := Outbound.NextSequence(journal, (id, OwnKey(journal.trades[id])));
      if n == TWO_TO_64 {
        return Err(InvalidValue);
      }
      r := JournalEnvelope(key, n);
    }

    /** The envelope carries the next sequence of this participant's stream, and is bound to its protocol step
        before it is sent. */
    method JournalEnvelope(key: string, n: uint64) returns (r: Result<SignedMessage, Error>)
      requires Valid() && Outbound.IsNextSequence(journal.messages, (id, OwnKey(state.rec)), n)
      modifies journal`trades, journal`messages, this`history, this`looks, this`state
      ensures Valid() && OnlyMessages(old(state), state) && state.seen == old(state).seen
      ensures r.Ok? ==> BoundTo(state.rec.sentMessages, journal.messages, key, r.value)
      ensures r.Ok? && Unbound(old(state).rec, key) ==>
                FromHere(state.rec, r.value) && r.value.message.sequence == n
      ensures old(history) <= history
    {
      hide Replay, Evidence, MaySet, SaveOutbound, BoundTo, MessagesKept;
      var encrypted: SignedMessage := *;
      var record := journal.trades[id];
      var envelope := encrypted.(message := encrypted.message.(
        network := record.order.order.network, orderID := record.order.id, tradeID := record.id, sequence := n,
        senderPublicKey := OwnKey(record), recipientPublicKey := PeerKey(record)));
      ghost var box := Outbox(journal.trades, journal.messages);
      r := journal.SaveOutboundMessage(id, key, envelope);
      MessagesKeptRefl(state.rec.sentMessages);
      if r.Ok? {
        OutboundSaved(crypto, box, id, key, envelope);
        var after := journal.trades[id];
        MessagesSettable(crypto, state, after);
        Log(Wrote(after));
      }
    }

    /** ensureMakerClaimTemplate */
    method EnsureMakerClaimTemplate(record: Swap) returns (r: Result<(), Error>)
      requires Valid() && Current(record, state) && record.role.Maker? && record.phase == AsyncMakerFunding
      modifies journal`trades, journal`messages, this`view, this`history, this`looks, this`state
      ensures Valid() && Drifted(old(view), view) && Current(record, state)
      ensures state.seen.taker == old(state).seen.taker
      ensures r.Ok? ==> state.rec.makerClaimTemplate.Some? && state.seen.templateDelivered
      ensures state.rec.makerFunding == old(state).rec.makerFunding
      ensures r.Ok? ==> old(history) <= history && TemplateDelivered in history[|old(history)|..]
    {
      hide Replay, Evidence, Current, Grows;
      CurrentFacts(record, state);
      if record.makerClaimTemplate.Some? {
        r := SendProtocolMessage(record, TEMPLATE_KEY);
        CurrentAfterMessages(crypto, record, old(state), state);
        CurrentFacts(record, state);
        return;
      }
      DriftReflexive(view);
      if record.takerFunding.None? {
        return Err(Rejected);
      }
      var stored :- JournalTemplate(record, record.takerFunding.value);
      ghost var before := state;
      r := SendProtocolMessage(journal.trades[id], TEMPLATE_KEY);
      CurrentAfterMessages(crypto, record, before, state);
    }

    /** The template is built from the funding it spends and stored before it is sent. */
    method JournalTemplate(record: Swap, funding: Notice) returns (r: Result<(), Error>)
      requires Valid() && Current(record, state) && record.role.Maker? && record.phase == AsyncMakerFunding
      modifies journal`trades, this`history, this`looks, this`state
      ensures Valid() && Current(record, state) && state.seen == old(state).seen
      ensures r.Ok? ==>
                && state.rec.makerClaimTemplate.Some? && state.rec.makerClaimTemplate.value.asset == funding.asset
                && state.rec.makerClaimTemplate.value.fundingTransactionID == funding.transactionID
      ensures old(history) <= history && state.rec.makerFunding == old(state).rec.makerFunding
    {
      hide Replay, Evidence, Current, MaySet, Extends;
      CurrentFacts(record, state);
      var stopped: bool := *;
      if stopped {
        return Err(Interrupted);
      }
      var transactionID: string, raw: string := *, *;
      var template := Template(funding.asset, funding.transactionID, transactionID, raw);
      if Apply(crypto, state.rec, UTemplate(template)).Ok? {
        StartedHasAgreement(crypto, state);
        TemplateIsStored(crypto, state.rec, template);
        TemplateSettable(crypto, state, template);
        CurrentAfterSet(crypto, record, state, Apply(crypto, state.rec, UTemplate(template)).value);
      }
      r := Set(UTemplate(template));
    }

    // ----- funding

    /** Hand a transaction to a wallet: it may be accepted although the answer is lost. */
    method Submit(ghost e: Event) returns (r: Result<(), Error>)
      requires Valid() && ReachesChain(e) && Allowed(crypto, state, e)
      modifies this`view, this`history, this`looks, this`state
      ensures Valid() && Drifted(old(view), view)
      ensures state == old(state) || state == old(state).(seen := WithSent(old(state).seen, e))
      ensures r.Ok? ==> state == old(state).(seen := WithSent(old(state).seen, e)) && history == old(history) + [e]
    {
      hide Replay, Evidence, Allowed, Next, WithSent;
      var stopped: bool := *;
      if stopped {
        return Err(Interrupted);
      }
      SendingOnlyMarks(state, e);
      Log(e);
      Drift();
      var lost: bool := *;
      return if lost then Err(Interrupted) else Ok(());
    }

    /** A Bitcoin transaction is journaled, then broadcast, then reconciled with what the wallet reports. */
    method SubmitBitcoin(kind: ActionKind, ghost e: Event) returns (r: Result<Action, Error>)
      requires Valid() && ReachesChain(e) && Allowed(crypto, state, e) && kind != MakerClaimProxy
      modifies journal`actions, this`view, this`history, this`looks, this`state
      ensures Valid() && Drifted(old(view), view)
      ensures state == old(state) || state == old(state).(seen := WithSent(old(state).seen, e))
      ensures r.Ok? ==> state == old(state).(seen := WithSent(old(state).seen, e)) && history == old(history) + [e]
      ensures r.Ok? ==> ActionID(id, kind) in journal.actions && journal.actions[ActionID(id, kind)].raw == r.value.raw
    {
      hide Replay, Evidence, Allowed, WithSent, Grows, ActionID;
      DriftReflexive(view);
      var action :- JournaledAction(kind);
      var sent :- Submit(e);
      var transaction: Transaction := *;
      var reconciled :- Reconcile(action, transaction);
      return Ok(action);
    }

    method Reconcile(action: Action, t: Transaction) returns (r: Result<Action, Error>)
      requires Valid()
      modifies journal`actions
      ensures Valid() && journal.actions.Keys == old(journal.actions.Keys)
      ensures forall k :: k in journal.actions ==> SameAction(journal.actions[k], old(journal.actions)[k])
      ensures r.Ok? && action.id in old(journal.actions) && old(journal.actions)[action.id] == action ==>
                journal.actions[action.id].status == if Mined(t) then Confirmed else Broadcast
    {
      hide Replay, Evidence, ActionID;
      if Reconciled(action, action, t).Ok? {
        ReconciledIsSent(action, t);
      }
      r := ReconcileBitcoinAction(journal, action, t);
      assert forall k :: k in journal.actions && k != action.id ==> journal.actions[k] == old(journal.actions)[k];
    }

    /** broadcastAsyncTakerFunding: either party may publish the taker's signed transaction */
    method BroadcastAsyncTakerFunding() returns (r: Result<(), Error>)
      requires Valid() && MaySendTakerFunding(state)
      modifies this`view, this`history, this`looks, this`state
      ensures Valid() && Drifted(old(view), view)
      ensures state == old(state) || state == old(state).(seen := old(state).seen.(takerFundingSent := true))
      ensures r.Ok? ==> state.seen.takerFundingSent
      ensures r.Ok? ==> history == old(history) + [SentTakerFunding]
    {
      hide Replay, Evidence, MaySendTakerFunding;
      r := Submit(SentTakerFunding);
    }

    /** The journaled Bitcoin transaction under an action ID, prepared now if there is none yet. */
    method JournaledAction(kind: ActionKind) returns (r: Result<Action, Error>)
      requires Valid() && kind != MakerClaimProxy
      modifies journal`actions
      ensures Valid()
      ensures r.Ok? ==> ActionID(id, kind) in journal.actions && journal.actions[ActionID(id, kind)] == r.value
      ensures r.Ok? && ActionID(id, kind) in old(journal.actions) ==>
                r.value == old(journal.actions)[ActionID(id, kind)]
    {
      hide Replay, Evidence, ActionID;
      ActionsDiffer(id, kind, id, MakerClaimProxy);
      var actionID := ActionID(id, kind);
      if actionID in journal.actions {
        return Ok(journal.actions[actionID]);
      }
      var stopped: bool := *;
      var raw: string, transactionID: string := *, *;
      if stopped {
        return Err(Interrupted);
      }
      r := journal.PrepareAction(Action(actionID, id, KindText(kind), "BTC", raw, transactionID, Prepared, 0));
    }

    /** ensureLocalFunding for the maker */
    method EnsureLocalFunding(record: Swap) returns (r: Result<(), Error>)
      requires Valid() && Current(record, state) && record.role.Maker? && record.phase == AsyncMakerFunding
      requires record.agreement.Some?
      requires MayFundMaker(state.(seen := state.seen.(window := Some((MINIMUM_QDAY_WINDOW, MINIMUM_BITCOIN_WINDOW)))))
      modifies journal`trades, journal`messages, journal`actions, this`view, this`history, this`looks, this`state
      ensures Valid() && Drifted(old(view), view) && Current(record, state)
      ensures state.seen.taker == Some(true)
      ensures r.Ok? ==> record.makerFunding.Some? || state.rec.makerFunding.Some?
      ensures r.Ok? ==>
                && old(history) <= history && NoticeDelivered in history[|old(history)|..]
                && (record.makerFunding.Some? || SentMakerFunding in history[|old(history)|..])
    {
      hide Replay, Evidence, MayWrite, Extends, Current;
      if record.makerFunding.Some? {
        r := SendProtocolMessage(record, "funding:maker");
        CurrentAfterMessages(crypto, record, old(state), state);
        return;
      }
      CurrentFacts(record, state);
      var open :- EnsureFundingWindows(record.agreement.value);
      CurrentSameRecord(record, old(state), state);
      if !open {
        return Err(WindowClosed);
      }
      r := FundAndNotify(record);
    }

    /** Past the window check: hand the funding to a wallet, journal its notice and tell the peer. */
    method FundAndNotify(record: Swap) returns (r: Result<(), Error>)
      requires Valid() && Current(record, state) && record.role.Maker? && record.agreement.Some?
      requires MayFundMaker(state)
      modifies journal`trades, journal`messages, journal`actions, this`view, this`history, this`looks, this`state
      ensures Valid() && Drifted(old(view), view) && Current(record, state)
      ensures state.seen.taker == old(state).seen.taker && (r.Ok? ==> state.rec.makerFunding.Some?)
      ensures r.Ok? ==> old(history) <= history && NoticeDelivered in history[|old(history)|..] && SentMakerFunding in history[|old(history)|..]
    {
      hide Replay, Evidence, MayWrite, Extends, Current, MayFundMaker, Grows;
      ghost var asked := history;
      var notice :- HandFundingToWallet(record.agreement.value);
      CurrentSameRecord(record, old(state), state);
      ghost var handed, seen := history, view;
      Noted(asked, SentMakerFunding, handed);
      r := NotifyFunding(record, notice);
      DriftTransitive(old(view), seen, view);
      if r.Ok? {
        StillNoted(asked, handed, history, NoticeDelivered);
        StillNoted(asked, handed, history, SentMakerFunding);
      }
    }

    /** The own funding is journaled before the peer hears of it. */
    method NotifyFunding(record: Swap, notice: Notice) returns (r: Result<(), Error>)
      requires Valid() && Current(record, state) && record.role.Maker? && record.agreement.Some?
      modifies journal`trades, journal`messages, this`view, this`history, this`looks, this`state
      ensures Valid() && Drifted(old(view), view) && Current(record, state)
      ensures state.seen.taker == old(state).seen.taker
      ensures r.Ok? ==>
                && NoticeValid(notice) && state.rec.makerFunding == Some(notice)
                && old(history) <= history && NoticeDelivered in history[|old(history)|..]
    {
      hide Replay, Evidence, MayWrite, Extends, Current, RelayTook, BoundTo, Unbound, Apply, MaySet, OnlyMessages, Drifted;
      DriftReflexive(view);
      if !NoticeValid(notice) {
        return Err(InvalidValue);
      }
      CurrentFacts(record, state);
      if Apply(crypto, state.rec, UFunding(Maker, notice)).Ok? {
        FundingSettable(crypto, state, Maker, notice);
        FundingIsStored(crypto, state.rec, Maker, notice);
        CurrentAfterSet(crypto, record, state, Apply(crypto, state.rec, UFunding(Maker, notice)).value);
      }
      var saved :- Set(UFunding(Maker, notice));
      ghost var before, noticed := state, history;
      CurrentSameRecord(record, old(state).(rec := state.rec), state);
      r := SendProtocolMessage(journal.trades[id], "funding:maker");
      CurrentAfterMessages(crypto, record, before, state);
      MessagesLeave(before, state);
      if r.Ok? {
        NotedLast(old(history), noticed, NoticeDelivered, history);
      }
    }

    /** The wallet half of ensureLocalFunding: fund QDAY, or journal and broadcast a Bitcoin funding. */
    method HandFundingToWallet(agreement: Agreement) returns (r: Result<Notice, Error>)
      requires Valid() && MayFundMaker(state)
      modifies journal`actions, this`view, this`history, this`looks, this`state
      ensures Valid() && Drifted(old(view), view) && state == old(state)
      ensures r.Ok? ==> history == old(history) + [SentMakerFunding]
      ensures r.Ok? ==> r.value.party == Maker && r.value.asset == (if AssetFundedBy(agreement, Maker) == "QDAY" then "QDAY" else "BTC")
      ensures r.Ok? && r.value.asset == "BTC" ==>
                && ActionID(id, MakerFundingAction) in journal.actions
                && journal.actions[ActionID(id, MakerFundingAction)].raw == r.value.raw
      ensures r.Ok? && r.value.asset == "QDAY" ==> journal.actions == old(journal.actions)
    {
      hide Replay, Evidence, MayFundMaker, Grows;
      if AssetFundedBy(agreement, Maker) == "QDAY" {
        var funded :- Submit(SentMakerFunding);
        var transactionID: string := *;
        return Ok(Notice(Maker, "QDAY", transactionID, ""));
      }
      var action :- SubmitBitcoin(MakerFundingAction, SentMakerFunding);
      return Ok(Notice(Maker, "BTC", action.transactionID, action.raw));
    }

    // ----- claims

    /** ensureLocalClaim: the own claim on the counterparty's funding */
    method EnsureLocalClaim(record: Swap) returns (r: Result<(), Error>)
      requires Valid() && Current(record, state) && record.agreement.Some?
      requires if record.role.Taker? then MayClaimAsTaker(state) else MayClaimAsMaker(state)
      modifies journal`actions, this`view, this`history, this`looks, this`state
      ensures Valid() && Drifted(old(view), view)
      ensures state == old(state) || state == old(state).(seen := WithSent(old(state).seen, SentClaim(record.role)))
      ensures r.Ok? ==> history == old(history) + [SentClaim(record.role)]
      ensures r.Ok? && record.role.Taker? ==> state.seen.ownClaimSent
      ensures r.Ok? ==>
                if AssetFundedBy(record.agreement.value, Opposite(record.role)) == "QDAY" then journal.actions == old(journal.actions)
                else ActionID(id, if record.role.Maker? then MakerClaimAction else TakerClaimAction) in journal.actions
    {
      hide Replay, Evidence, MayClaimAsTaker, MayClaimAsMaker, Current, Grows;
      DriftReflexive(view);
      CurrentFacts(record, state);
      var party := record.role;
      if party.Maker? && record.revealedSecret == "" {
        return Err(Rejected);
      }
      if FundingOf(record, Opposite(party)).None? {
        return Err(Rejected);
      }
      if AssetFundedBy(record.agreement.value, Opposite(party)) == "QDAY" {
        r := Submit(SentClaim(party));
        return;
      }
      var action :- SubmitBitcoin(if party.Maker? then MakerClaimAction else TakerClaimAction, SentClaim(party));
      return Ok(());
    }

    /** broadcastProxyMakerClaim: publish the maker's completed claim unless it is already visible */
    method BroadcastProxyMakerClaim(record: Swap) returns (r: Result<(), Error>)
      requires Valid() && state.rec.role.Taker?
      requires || (state.rec.phase == AsyncTakerClaiming && state.seen.ownClaimSent)
               || (state.rec.phase == AsyncMakerClaiming && Found(state.seen.takerClaim) && state.seen.taker == Some(true))
      modifies journal`actions, this`view, this`history, this`looks, this`state
      ensures Valid() && Drifted(old(view), view)
      ensures state == old(state).(seen := old(state).seen.(makerClaim := state.seen.makerClaim))
      ensures r.Ok? ==> old(history) <= history && PublishesProxy(history[|old(history)|..])
    {
      hide Replay, Evidence, MayWrite, Grows;
      DriftReflexive(view);
      var actionID := ActionID(id, MakerClaimProxy);
      if actionID !in journal.actions {
        return Err(NotFound);
      }
      var action := journal.actions[actionID];
      var seen :- ObserveClaim(record, Maker);
      if seen.0.found {
        r := MarkIfPrepared(action);
        ProxyPublished(old(history), seen.0, history);
        return;
      }
      ghost var before := view;
      r := PublishProxyClaim(action);
      DriftTransitive(old(view), before, view);
      if r.Ok? {
        ProxyPublished(old(history), seen.0, history);
      }
    }

    method MarkIfPrepared(action: Action) returns (r: Result<(), Error>)
      requires Valid()
      modifies journal`actions
      ensures Valid()
      ensures r.Ok? && action.id in old(journal.actions) && old(journal.actions)[action.id] == action ==>
                action.id in journal.actions && journal.actions[action.id].status != Prepared
    {
      hide Replay, Evidence;
      if action.status == Prepared {
        var marked :- journal.MarkBroadcast(action.id);
      }
      return Ok(());
    }

    method PublishProxyClaim(action: Action) returns (r: Result<(), Error>)
      requires Valid() && MayClaimByProxy(state)
      modifies journal`actions, this`view, this`history, this`looks, this`state
      ensures Valid() && Drifted(old(view), view) && state == old(state)
      ensures r.Ok? ==> history == old(history) + [SentProxyClaim]
    {
      hide Replay, Evidence, MayClaimByProxy, Grows;
      var sent :- Submit(SentProxyClaim);
      if action.chain == "BTC" {
        var transaction: Transaction := *;
        var reconciled :- Reconcile(action, transaction);
        return Ok(());
      }
      r := MarkIfPrepared(action);
    }

    // ----- refunds

    /** A journaled Bitcoin funding is found exactly when it was broadcast or the wallet knows it, and
        nothing but the journaled one. */
    ghost predicate Recovered(party: Party, actionID: string, known: bool, found: Option<Notice>)
      reads journal
    {
      if actionID !in journal.actions then found == None
      else
        var action := journal.actions[actionID];
        found == if action.status != Prepared || known then Some(Notice(party, "BTC", action.transactionID, action.raw)) else None
    }

    /** The participant's own funding is neither recorded nor known to any wallet or node, and the windows
        are closed. */
    ghost predicate Sleeps(r: Swap, v: View, actions: map<string, Action>) {
      && IdleSwap(r, actions, id)
      && dormant == Some(Dormant(r.role, r.agreement.value)) && LiesDormant(v, dormant.value)
    }

    /** This round looked at the windows and found one too short. */
    ghost predicate SawClosed()
      reads this
    {
      state.seen.window.Some? && !Open(state.seen.window.value)
    }

    /** Where a round that saw a closed window leads: to expiry from the first phase, from any other to a
        refused write that changes nothing. */
    ghost predicate Abandoned(record: Swap, r: Result<bool, Error>)
      reads this
    {
      if record.phase == AsyncTakerFunding then r == Ok(true) && ExpiredFrom(record, state.rec)
      else r == Err(InvalidAdvance) && state.rec == record
    }

    /** recoverSubmittedLocalFunding: a wallet may have accepted the funding just before a crash */
    method RecoverSubmittedLocalFunding(record: Swap) returns (r: Result<Option<Notice>, Error>)
      requires Valid() && record.agreement.Some?
      modifies this`view, this`history, this`looks, this`state
      ensures Valid() && Drifted(old(view), view)
      ensures r.Ok? ==> state == old(state).(seen := old(state).seen.(recovered := Some(r.value.Some?)))
      ensures r.Err? ==> state == old(state)
      ensures r.Ok? ==>
                if AssetFundedBy(record.agreement.value, record.role) == "BTC" then
                  Recovered(record.role, ActionID(id, MakerFundingAction), LegOf(view, record.role).observed, r.value)
                else r.value.Some? <==> LegOf(view, record.role).observed
      ensures r.Ok? && r.value.Some? ==>
                NoticeValid(r.value.value) && r.value.value.asset == AssetFundedBy(record.agreement.value, record.role)
      ensures !LegOf(view, record.role).observed && FundingUnsent(journal.actions, id) ==> r == Ok(None) || r == Err(Interrupted)
      ensures history == old(history) + if r.Ok? then [SawRecovery(r.value.Some?)] else []
    {
      hide Replay, Evidence;
      var party := record.role;
      var asset := AssetFundedBy(record.agreement.value, party);
      Drift();
      var stopped: bool := *;
      if stopped {
        return Err(Interrupted);
      }
      var submitted := LegOf(view, party).observed;
      var transactionID: string, raw := *, "";
      if asset == "BTC" {
        var actionID := ActionID(id, MakerFundingAction);
        if actionID !in journal.actions {
          submitted := false;
        } else {
          var action := journal.actions[actionID];
          transactionID, raw := action.transactionID, action.raw;
          submitted := action.status != Prepared || submitted;
        }
      }
      var notice := Notice(party, asset, transactionID, raw);
      if submitted && !NoticeValid(notice) {
        return Err(InvalidValue);
      }
      Log(SawRecovery(submitted));
      return Ok(if submitted then Some(notice) else None);
    }

    /** The first half of maybeStartRefund: whether this participant's own funding is out. */
    method RestoreOwnFunding(record: Swap) returns (r: Result<bool, Error>)
      requires Valid() && record == state.rec && Running(record.phase) && record.agreement.Some?
      requires record.takerFunding.Some?
      modifies journal`trades, this`view, this`history, this`looks, this`state
      ensures Valid() && Drifted(old(view), view) && Current(record, state)
      ensures r.Ok? ==> (r.value <==> LocallyFunded(state.rec))
      ensures r.Ok? && !r.value ==>
                if record.role.Taker? then state.seen.pool == Some(false) else state.seen.recovered == Some(false)
      ensures state.seen.window == old(state).seen.window && (r == Ok(false) ==> state.rec == record)
      ensures Sleeps(record, old(view), old(journal.actions)) ==> state.rec == record && (r == Ok(false) || r == Err(Interrupted))
      ensures r.Ok? ==>
                && ChecksSince(old(history), history, record.role)
                && (state.rec.makerFunding == record.makerFunding || SawRecovery(true) in history[|old(history)|..])
    {
      NothingChecked(history, record.role);
      hide Replay, Evidence, Apply, MaySet, Extends, ChecksSince;
      CurrentRefl(record, state);
      if record.role.Maker? {
        if record.makerFunding.Some? {
          return Ok(true);
        }
        r := RestoreMakerFunding(record);
        CurrentFacts(record, state);
        return;
      }
      if record.takerFundingSubmitted {
        return Ok(true);
      }
      var observed :- ObservePool();
      CurrentSameRecord(record, old(state), state);
      CheckedBy(old(history), SawPool(observed), [], history, record.role);
      if !observed {
        return Ok(false);
      }
      r := MarkSubmitted(record);
      if r.Ok? {
        CheckedBy(old(history), SawPool(true), [Wrote(state.rec)], history, record.role);
      }
    }

    /** Its maker half: a funding some wallet has accepted is recorded after all. */
    method RestoreMakerFunding(record: Swap) returns (r: Result<bool, Error>)
      requires Valid() && record == state.rec && Running(record.phase) && record.agreement.Some?
      requires record.role.Maker? && record.makerFunding.None?
      modifies journal`trades, this`view, this`history, this`looks, this`state
      ensures Valid() && Drifted(old(view), view) && Current(record, state)
      ensures r.Ok? ==> r.value == state.rec.makerFunding.Some? && state.seen.recovered == Some(r.value)
      ensures state.seen.window == old(state).seen.window && (r == Ok(false) ==> state.rec == record)
      ensures !LegOf(old(view), Maker).observed && dormant.Some? && LiesDormant(old(view), dormant.value) && dormant.value.party == Maker
              && FundingUnsent(journal.actions, id) ==>
                state.rec == record && (r == Ok(false) || r == Err(Interrupted))
      ensures r.Ok? ==> ChecksSince(old(history), history, Maker) && (r.value ==> SawRecovery(true) in history[|old(history)|..])
    {
      hide Replay, Evidence, Apply, MaySet, Extends, ChecksSince, FundingUnsent, NoticeValid, Recovered;
      CurrentRefl(record, state);
      var recovered :- RecoverSubmittedLocalFunding(record);
      CurrentSameRecord(record, old(state), state);
      CheckedBy(old(history), SawRecovery(recovered.Some?), [], history, Maker);
      if recovered.None? {
        return Ok(false);
      }
      FundingApplies(crypto, state.rec, Maker, recovered.value);
      FundingSettable(crypto, state, Maker, recovered.value);
      CurrentAfterSet(crypto, record, state, Apply(crypto, state.rec, UFunding(Maker, recovered.value)).value);
      var saved :- Set(UFunding(Maker, recovered.value));
      CheckedBy(old(history), SawRecovery(true), [Wrote(state.rec)], history, Maker);
      Noted(old(history), SawRecovery(true), history);
      return Ok(true);
    }

    /** SetTakerFundingSubmitted(true), once the funding was sent or seen */
    method MarkSubmitted(record: Swap) returns (r: Result<bool, Error>)
      requires Valid() && Current(record, state) && record.agreement.Some?
      requires state.seen.takerFundingSent || state.seen.taker == Some(true) || state.seen.pool == Some(true)
      modifies journal`trades, this`history, this`looks, this`state
      ensures Valid() && Current(record, state) && state.seen == old(state).seen
      ensures r.Ok? ==>
                r.value && state.rec.takerFundingSubmitted && state.rec == old(state).rec.(takerFundingSubmitted := true)
      ensures r.Ok? ==> history == old(history) + [Wrote(state.rec)]
    {
      hide Valid, LossText, Replay, Evidence, MaySet, Extends, Apply;
      CurrentFacts(record, state);
      ValidKnows();
      PhaseEvidence(crypto, state);
      SubmittedApplies(crypto, state.rec);
      SubmittedSettable(crypto, state);
      CurrentAfterSet(crypto, record, state, Apply(crypto, state.rec, USubmitted(true)).value);
      var saved :- Set(USubmitted(true));
      return Ok(true);
    }

    /** The branch of maybeStartRefund without own funding: expire, or wait for the peer's refund. */
    method AbandonOrWait(record: Swap) returns (r: Result<bool, Error>)
      requires Valid() && Current(record, state) && Running(record.phase) && record.agreement.Some?
      requires !LocallyFunded(state.rec)
      requires if record.role.Taker? then state.seen.pool == Some(false) else state.seen.recovered == Some(false)
      requires record == state.rec && state.seen.window.None?
      modifies journal`trades, this`view, this`history, this`looks, this`state
      ensures Valid() && Drifted(old(view), view)
      ensures r == Ok(true) ==> state.rec.phase in {WaitingForRefund, Expired}
      ensures r == Ok(false) ==> Current(record, state) && StaysInSwap(state)
      ensures SawClosed() && r != Err(Interrupted) ==> Abandoned(record, r)
      ensures Sleeps(record, old(view), old(journal.actions)) ==> if r == Err(Interrupted) then state.rec == record else SawClosed()
      ensures r == Ok(false) ==> ChecksSince(old(history), history, record.role) && state.rec.makerFunding == old(state).rec.makerFunding
      ensures r.Ok? ==> !LocallyFunded(state.rec)
    {
      hide Valid, LossText, Replay, Evidence, Current, LocallyFunded, Grows, Sleeps, Drifted, Abandoned, Remaining;
      CurrentFacts(record, state);
      var open :- EnsureFundingWindows(record.agreement.value);
      CurrentSameRecord(record, old(state), state);
      StaysDormant(record, old(view), view, journal.actions);
      ghost var before := view;
      if !open {
        r := Abandon(record);
        PhaseKeepsFunding(record, Expired, "");
      } else {
        r := WaitForPeerRefund(record);
      }
      DriftTransitive(old(view), before, view);
    }

    lemma StaysDormant(r: Swap, v: View, w: View, actions: map<string, Action>)
      requires Drifted(v, w)
      ensures Sleeps(r, v, actions) ==> Sleeps(r, w, actions) && !Open(Remaining(r.agreement.value, w.qdayHeight, w.bitcoinHeight))
    {
    }

    /** Release what was prepared for the own funding, then expire. */
    method Abandon(record: Swap) returns (r: Result<bool, Error>)
      requires Valid() && record == state.rec && Running(record.phase) && MayExpire(state)
      modifies journal`trades, this`view, this`history, this`looks, this`state
      ensures Valid() && Drifted(old(view), view) && state.seen == old(state).seen
      ensures if r == Err(Interrupted) then state.rec == record else Abandoned(record, r)
      ensures r.Ok? ==> r.value && state.rec.phase == Expired
      ensures r.Ok? ==> state.rec == record.(phase := Expired, lastError := "")
    {
      hide Valid, Replay, Evidence, MayExpire;
      DriftReflexive(view);
      var released: bool := *;
      if !released {
        return Err(Interrupted);
      }
      r := Expire(record.phase);
    }

    /** Journal.Advance to expired: the phase graph has that edge from the first phase only. */
    method Expire(phase: Phase) returns (r: Result<bool, Error>)
      requires Valid() && state.rec.phase == phase && Running(phase) && MayExpire(state)
      modifies journal`trades, this`history, this`looks, this`state
      ensures Valid()
      ensures state.seen == old(state).seen && (r != Err(Interrupted) ==> Abandoned(old(state).rec, r))
      ensures r.Err? ==> state == old(state)
    {
      hide Replay, Evidence, MayExpire;
      ExpiryEdge(phase);
      var expired :- Advance(phase, Expired);
      return Ok(true);
    }

    method WaitForPeerRefund(record: Swap) returns (r: Result<bool, Error>)
      requires Valid() && Current(record, state) && Running(record.phase)
      requires !LocallyFunded(state.rec) && state.seen.window.Some? && Open(state.seen.window.value)
      modifies journal`trades, this`view, this`history, this`looks, this`state
      ensures Valid() && Drifted(old(view), view) && state.seen.window == old(state).seen.window
      ensures r == Ok(true) ==> state.rec.phase == WaitingForRefund
      ensures r == Ok(false) ==> Current(record, state) && StaysInSwap(state)
      ensures r == Ok(false) ==> ChecksSince(old(history), history, record.role) && state.rec.makerFunding == old(state).rec.makerFunding
      ensures r.Ok? ==> !LocallyFunded(state.rec)
    {
      NothingChecked(history, record.role);
      hide Valid, Replay, Evidence, Current, LocallyFunded, Running, Grows, ChecksSince, Drifted, MayWaitForRefund, StaysInSwap, Open,
        FundingOf, RefundSeen, WithRefund;
      DriftReflexive(view);
      ValidKnows();
      CurrentFacts(record, state);
      PeerRefundDecides(state);
      var peer := Opposite(record.role);
      if FundingOf(journal.trades[id], peer).None? {
        return Ok(false);
      }
      var refunded :- ObserveRefund(peer);
      RefundNoted(old(state).seen, peer, refunded);
      CurrentSameRecord(record, old(state), state);
      PeerRefundDecides(state);
      CheckedBy(old(history), SawRefund(peer, refunded), [], history, record.role);
      if !refunded {
        return Ok(false);
      }
      r := StartWaiting();
    }

    method StartWaiting() returns (r: Result<bool, Error>)
      requires Valid() && Running(state.rec.phase) && MayWaitForRefund(state)
      modifies journal`trades, this`history, this`looks, this`state
      ensures Valid() && state.seen == old(state).seen
      ensures r.Ok? ==> r.value && state.rec.phase == WaitingForRefund
      ensures state.rec == old(state).rec.(phase := state.rec.phase, lastError := state.rec.lastError)
      ensures LocallyFunded(state.rec) == LocallyFunded(old(state).rec)
    {
      hide Replay, Evidence, MayAdvance, ValidAdvance, MayWaitForRefund, LocallyFunded;
      EntersWaiting(state);
      PhaseKeepsFunding(state.rec, WaitingForRefund, "");
      var waiting :- Advance(journal.trades[id].phase, WaitingForRefund);
      return Ok(true);
    }

    /** The branch with own funding: a visible counterparty claim wins over a due refund. */
    method WaitWhenDue(record: Swap) returns (r: Result<bool, Error>)
      requires Valid() && Current(record, state) && Running(record.phase) && record.agreement.Some?
      requires LocallyFunded(state.rec)
      modifies journal`trades, this`view, this`history, this`looks, this`state
      ensures Valid() && Drifted(old(view), view) && state.seen.window == old(state).seen.window
      ensures r == Ok(true) ==> state.rec.phase == WaitingForRefund
      ensures r == Ok(false) ==> Current(record, state) && StaysInSwap(state)
      ensures r == Ok(false) ==> ChecksSince(old(history), history, record.role) && state.rec.makerFunding == old(state).rec.makerFunding
      ensures r == Ok(true) ==> Absent(ClaimSeen(state.seen, Opposite(record.role))) && OwnLegReached(state.rec, view)
      ensures r == Ok(false) ==> Found(ClaimSeen(state.seen, Opposite(record.role))) || !OwnLegReached(state.rec, view)
    {
      StillFunded(state.rec);
      hide Valid, LossText, Replay, Evidence, Current, LocallyFunded, Grows, ChecksSince, Drifted, OwnLegReached;
      ValidKnows();
      var stored := journal.trades[id];
      var claim :- ObserveClaim(stored, Opposite(record.role));
      CurrentSameRecord(record, old(state), state);
      CurrentFacts(record, state);
      ghost var looked := history;
      CheckedBy(old(history), SawClaim(Opposite(record.role), claim.0), [], history, record.role);
      if claim.0.found {
        if stored.revealedSecret == "" {
          var ignored := RevealSecret(record, claim.1);
          if ignored.Ok? {
            CheckedBy(old(history), SawClaim(Opposite(record.role), claim.0), [Wrote(state.rec)], history, record.role);
          }
        }
        return Ok(false);
      }
      ghost var before := view;
      r := WaitUntilDue(record);
      DriftTransitive(old(view), before, view);
      if r == Ok(false) {
        CheckedFurther(old(history), looked, history, record.role);
      }
    }

    method WaitUntilDue(record: Swap) returns (r: Result<bool, Error>)
      requires Valid() && Current(record, state) && Running(record.phase) && record.agreement.Some?
      requires LocallyFunded(state.rec) && Absent(ClaimSeen(state.seen, Opposite(record.role)))
      modifies journal`trades, this`view, this`history, this`looks, this`state
      ensures Valid() && Drifted(old(view), view) && state.seen.window == old(state).seen.window
      ensures r == Ok(true) ==> state.rec.phase == WaitingForRefund
      ensures r == Ok(false) ==> Current(record, state) && StaysInSwap(state)
      ensures r == Ok(false) ==> ChecksSince(old(history), history, record.role) && state.rec.makerFunding == old(state).rec.makerFunding
      ensures r.Ok? ==> (r.value <==> OwnLegReached(state.rec, view)) && state.seen == old(state).seen.(due := state.seen.due)
    {
      hide Valid, LossText, Replay, Evidence, Current, IsDue, Grows, MayAdvance, ValidAdvance, MayRewind, ValidRewind;
      ValidKnows();
      CurrentFacts(record, state);
      var due :- ObserveDue(record.agreement.value, FundingOf(journal.trades[id], record.role).value);
      CurrentSameRecord(record, old(state), state);
      if !due {
        return Ok(false);
      }
      r := StartWaiting();
    }

    /** SetRevealedSecret */
    method RevealSecret(record: Swap, revealed: string) returns (r: Result<(), Error>)
      requires Valid() && Current(record, state) && record.agreement.Some?
      modifies journal`trades, this`history, this`looks, this`state
      ensures Valid() && Current(record, state) && state.seen == old(state).seen
      ensures r.Ok? ==> state.rec.revealedSecret != "" && state.rec == old(state).rec.(revealedSecret := revealed)
      ensures r.Err? ==> state == old(state)
      ensures history == old(history) + if r.Ok? then [Wrote(state.rec)] else []
    {
      hide Valid, LossText, Replay, Evidence, MaySet, Extends, Apply, Current;
      ValidKnows();
      CurrentFacts(record, state);
      if Apply(crypto, state.rec, USecret(revealed)).Ok? {
        SecretApplies(crypto, state.rec, revealed);
        SecretSettable(crypto, state, revealed);
        CurrentAfterSet(crypto, record, state, Apply(crypto, state.rec, USecret(revealed)).value);
      }
      ghost var before := state;
      r := Set(USecret(revealed));
      if r.Ok? {
        CurrentSameRecord(record, before.(rec := state.rec), state);
      }
    }

    /** maybeStartRefund */
    method MaybeStartRefund(record: Swap) returns (r: Result<bool, Error>)
      requires Valid() && record == state.rec && (Running(record.phase) || record.phase in {WaitingForRefund, Refunding})
      requires state.seen.window.None?
      modifies journal`trades, this`view, this`history, this`looks, this`state
      ensures Valid() && Drifted(old(view), view)
      ensures r == Ok(true) ==> Running(record.phase) && state.rec.phase in {WaitingForRefund, Expired}
      ensures r == Ok(false) ==> Current(record, state) && (Running(record.phase) ==> StaysInSwap(state))
      ensures r == Ok(false) ==> (!Running(record.phase) ==> state == old(state))
      ensures SawClosed() && r != Err(Interrupted) ==> Abandoned(record, r)
      ensures Sleeps(record, old(view), old(journal.actions)) ==> if r == Err(Interrupted) then state.rec == record else SawClosed()
      ensures r == Ok(false) ==>
                && ChecksSince(old(history), history, record.role)
                && (state.rec.makerFunding == record.makerFunding || SawRecovery(true) in history[|old(history)|..])
      ensures r == Ok(true) && LocallyFunded(state.rec) ==>
                Absent(ClaimSeen(state.seen, Opposite(record.role))) && OwnLegReached(state.rec, view)
      ensures r == Ok(false) && Running(record.phase) && LocallyFunded(state.rec) ==>
                Found(ClaimSeen(state.seen, Opposite(record.role))) || !OwnLegReached(state.rec, view)
    {
      NothingChecked(history, record.role);
      DriftReflexive(view);
      hide Valid, LossText, Replay, Evidence, Extends, FundingUnsent, Current, LocallyFunded, OwnLegReached, ChecksSince, StaysInSwap,
        Drifted;
      CurrentRefl(record, state);
      if record.phase == WaitingForRefund || record.phase == Refunding {
        return Ok(false);
      }
      ValidKnows();
      StartedHasAgreement(crypto, state);
      var funded :- RestoreOwnFunding(record);
      CurrentFacts(record, state);
      StaysDormant(record, old(view), view, journal.actions);
      ghost var before, restored := view, history;
      if funded {
        r := WaitWhenDue(record);
      } else {
        r := AbandonOrWait(record);
      }
      DriftTransitive(old(view), before, view);
      if r == Ok(false) {
        CheckedFurther(old(history), restored, history, record.role);
      }
    }

    /** The wallet's answer about the journaled refund transaction. */
    method RefundTransaction(party: Party) returns (r: Result<Transaction, Error>)
      requires Valid()
      modifies this`view
      ensures Valid() && Drifted(old(view), view)
      ensures r.Ok? ==> (r.value.confirmations > 0 <==> LegOf(view, party).refundMined)
      ensures r.Ok? && r.value.confirmations > 0 && steady ==> RefundedOn(view, party)
    {
      hide Replay, Evidence;
      Drift();
      var stopped: bool := *;
      if stopped {
        return Err(Interrupted);
      }
      var deeper: nat, height: int := *, *;
      return Ok(Transaction(if LegOf(view, party).refundMined then 1 + deeper else 0, height));
    }

    /** ensureLocalRefund */
    method EnsureLocalRefund(record: Swap) returns (r: Result<bool, Error>)
      requires Valid() && record == state.rec && record.phase == Refunding
      modifies journal`actions, this`view, this`history, this`looks, this`state
      ensures Valid() && Drifted(old(view), view) && state.rec == old(state).rec
      ensures r.Ok? && record.takerFunding.Some? ==> RefundSeen(state.seen, RefundLeg(record)) == Some(r.value)
      ensures r == Ok(true) ==>
                RefundSeen(state.seen, RefundLeg(record)) == Some(true) && (steady ==> RefundedOn(view, RefundLeg(record)))
      ensures r.Ok? && record.takerFunding.Some? ==> old(history) <= history && RefundDone(record, history[|old(history)|..])
    {
      hide Replay, Evidence, Grows, RefundDone;
      DriftReflexive(view);
      var party := record.role;
      if FundingOf(record, party).None? {
        if FundingOf(record, Opposite(party)).None? {
          return Ok(false);
        }
        r := ObserveRefund(Opposite(party));
        if r.Ok? {
          RefundHandled(record, old(history), r.value, history);
        }
        return;
      }
      if FundingOf(record, party).value.asset == "QDAY" {
        var refunded :- ObserveRefund(party);
        if refunded {
          RefundHandled(record, old(history), true, history);
          return Ok(true);
        }
        ghost var before := view;
        var sent := Submit(SentRefund);
        DriftTransitive(old(view), before, view);
        if sent.Err? {
          return Err(sent.error);
        }
        RefundHandled(record, old(history), false, history);
        return Ok(false);
      }
      r := RefundBitcoin(record);
      if r.Ok? {
        RefundHandled(record, old(history), r.value, history);
      }
    }

    /** Its Bitcoin half: journal, broadcast and reconcile the refund, then ask for its confirmations. */
    method RefundBitcoin(record: Swap) returns (r: Result<bool, Error>)
      requires Valid() && record == state.rec && record.phase == Refunding
      modifies journal`actions, this`view, this`history, this`looks, this`state
      ensures Valid() && Drifted(old(view), view) && state.rec == old(state).rec
      ensures r.Ok? ==> RefundSeen(state.seen, record.role) == Some(r.value)
      ensures r == Ok(true) && steady ==> RefundedOn(view, record.role)
      ensures r.Ok? ==> history == old(history) + [SentRefund] + [SawRefund(record.role, r.value)]
      ensures r.Ok? ==> ActionID(id, if record.role.Maker? then MakerRefundAction else TakerRefundAction) in journal.actions
    {
      hide Replay, Evidence, MayWrite, Grows;
      DriftReflexive(view);
      var kind := if record.role.Maker? then MakerRefundAction else TakerRefundAction;
      var action :- SubmitBitcoin(kind, SentRefund);
      ghost var before := view;
      r := ConfirmRefund(record.role);
      DriftTransitive(old(view), before, view);
    }

    /** Its confirmations, from the answer to the broadcast or from a second question. */
    method ConfirmRefund(party: Party) returns (r: Result<bool, Error>)
      requires Valid()
      modifies this`view, this`history, this`looks, this`state
      ensures Valid() && Drifted(old(view), view) && state.rec == old(state).rec
      ensures r.Ok? ==> RefundSeen(state.seen, party) == Some(r.value)
      ensures r == Ok(true) && steady ==> RefundedOn(view, party)
      ensures r.Ok? ==> history == old(history) + [SawRefund(party, r.value)]
    {
      hide Replay, Evidence, Grows;
      var transaction :- RefundTransaction(party);
      if transaction.confirmations == 0 {
        ghost var before := view;
        var second := RefundTransaction(party);
        DriftTransitive(old(view), before, view);
        transaction :- second;
      }
      Log(SawRefund(party, transaction.confirmations > 0));
      return Ok(transaction.confirmations > 0);
    }

    /** refundStateConfirmed */
    method RefundStateConfirmed(record: Swap) returns (r: Result<bool, Error>)
      requires Valid() && record == state.rec && record.takerFunding.Some?
      modifies this`view, this`history, this`looks, this`state
      ensures Valid() && Drifted(old(view), view) && state.rec == old(state).rec
      ensures r.Ok? ==>
                RefundSeen(state.seen, RefundLeg(record)) == Some(r.value) && r.value == RefundedOn(view, RefundLeg(record))
      ensures r.Ok? ==> history == old(history) + [SawRefund(RefundLeg(record), r.value)]
    {
      hide Replay, Evidence;
      r := ObserveRefund(RefundLeg(record));
    }

    // ----- one phase at a time

    /** What every phase of the loop starts from; record is what the iteration read. */
    ghost predicate At(record: Swap, phase: Phase)
      reads this, journal
    {
      && Valid() && Current(record, state) && record.phase == phase
      && record.agreement.Some? && record.takerFunding.Some?
    }

    /** Going round again brings the pass closer to rest. */
    ghost predicate Closer(record: Swap, before: View)
      reads this
    {
      state.rec.phase != Matched && (steady ==> Rank(state.rec, view) < Rank(record, before))
    }

    /** The round did what the decision table says about what it saw. */
    ghost predicate Leads(decision: Option<Phase>, phase: Phase, again: bool)
      reads this
    {
      again == decision.Some? && state.rec.phase == if again then decision.value else phase
    }

    /** Unless it sent the swap back, the round has done what its phase asks for. */
    ghost predicate Did(record: Swap, before: seq<Event>)
      reads this`history, this`state
    {
      before <= history && (GoesOn(record.phase, state.rec.phase) ==> Does(record, history[|before|..]))
    }

    /** Moving on at the end of a round. */
    lemma DidThenWrote(record: Swap, before: seq<Event>, mid: seq<Event>)
      requires before <= mid && Does(record, mid[|before|..]) && history == mid + [Wrote(state.rec)]
      ensures Did(record, before)
    {
      hide Does;
      ThenWrote(record, mid[|before|..], state.rec);
      assert history[|before|..] == mid[|before|..] + [Wrote(state.rec)];
    }

    lemma WentBack(record: Swap, before: seq<Event>)
      requires before <= history && !GoesOn(record.phase, state.rec.phase)
      ensures Did(record, before)
    {
    }

    lemma MakerClaimingEnds(record: Swap, before: seq<Event>, v: ClaimView, seen: seq<Event>)
      requires record.phase == AsyncMakerClaiming && seen == before + [SawClaim(Taker, v)] && seen <= history
      requires GoesOn(AsyncMakerClaiming, state.rec.phase) ==> MakerSideDone(record.role, history[|seen|..])
      ensures Did(record, before)
    {
      hide Does, MakerSideDone;
      if GoesOn(AsyncMakerClaiming, state.rec.phase) {
        MakerClaimingRound(record, before, v, seen, history);
      }
    }

    lemma CompleteEnds(record: Swap, before: seq<Event>, again: bool)
      requires record.phase == Complete && before <= history
      requires again ==> state.rec.phase in {AsyncTakerClaiming, AsyncMakerClaiming}
      requires !again ==>
                 history == before + [SawClaim(Taker, ClaimView(true, true))] + [SawClaim(Maker, ClaimView(true, true))]
      ensures Did(record, before)
    {
      if !again {
        CompletedRound(record, before, history);
      }
    }

    /** The checks before the switch on the phase take nothing away. */
    lemma DidAfterChecks(record: Swap, now: Swap, before: seq<Event>, checked: seq<Event>)
      requires ChecksSince(before, checked, record.role) && Did(now, checked)
      requires now.phase == record.phase && now.role == record.role
      requires record.role.Taker? ==> now.makerClaimTemplate == record.makerClaimTemplate
      requires record.makerFunding.Some? ==> now.makerFunding.Some?
      requires now.makerFunding == record.makerFunding || SawRecovery(true) in checked[|before|..]
      requires record.phase in {Refunding, Refunded} ==> now == record
      ensures Did(record, before)
    {
      hide Does, ChecksOnly;
      AddedInSteps(before, checked, history);
      if GoesOn(record.phase, state.rec.phase) {
        ChecksFirst(record, now, checked[|before|..], history[|checked|..]);
      }
    }

    /** The recurring check: a taker funding that lost its confirmations sends the swap back to the start. */
    method KeepTakerFunding(record: Swap, reason: Loss) returns (r: Result<bool, Error>)
      requires Valid() && Current(record, state) && record.takerFunding.Some?
      requires record.phase in {AsyncTakerFunded, AsyncMakerFunding, AsyncMakerFunded, AsyncTakerClaiming, AsyncMakerClaiming}
      modifies journal`trades, this`view, this`history, this`looks, this`state
      ensures Valid() && Drifted(old(view), view)
      ensures r.Ok? ==> state.seen == old(state).seen.(taker := Some(r.value))
      ensures r == Ok(true) ==>
                state.rec == old(state).rec && Current(record, state) && view.taker.confirmed
      ensures r == Ok(false) ==> state.rec.phase == AsyncTakerFunding && (steady ==> !old(view).taker.confirmed)
      ensures r.Ok? ==> old(history) <= history
      ensures r == Ok(true) ==> history == old(history) + [SawFunding(Taker, true)]
    {
      hide Valid, LossText, Replay, Evidence, Current, MayAdvance, ValidAdvance, MayRewind, ValidRewind;
      CurrentFacts(record, state);
      var confirmed :- ObserveFunding(record, Taker);
      CurrentSameRecord(record, old(state), state);
      if !confirmed {
        ReturnsToTakerFunding(state);
        var rewound :- Rewind(record.phase, AsyncTakerFunding, reason);
      }
      return Ok(confirmed);
    }

    /** The same for the maker's funding, once the taker's was found confirmed. */
    method KeepMakerFunding(record: Swap, reason: Loss) returns (r: Result<bool, Error>)
      requires Valid() && Current(record, state) && record.makerFunding.Some? && state.seen.taker == Some(true)
      requires record.phase in {AsyncMakerFunded, AsyncTakerClaiming}
      modifies journal`trades, this`view, this`history, this`looks, this`state
      ensures Valid() && Drifted(old(view), view)
      ensures r.Ok? ==> state.seen == old(state).seen.(maker := Some(r.value))
      ensures r == Ok(true) ==>
                state.rec == old(state).rec && Current(record, state) && view.maker.confirmed
      ensures r == Ok(false) ==> state.rec.phase == AsyncMakerFunding && (steady ==> !old(view).maker.confirmed)
      ensures r.Ok? ==> old(history) <= history
      ensures r == Ok(true) ==> history == old(history) + [SawFunding(Maker, true)]
    {
      hide Valid, LossText, Replay, Evidence, Current, MayAdvance, ValidAdvance, MayRewind, ValidRewind;
      CurrentFacts(record, state);
      var confirmed :- ObserveFunding(record, Maker);
      CurrentSameRecord(record, old(state), state);
      if !confirmed {
        ReturnsToMakerFunding(state);
        var rewound :- Rewind(record.phase, AsyncMakerFunding, reason);
      }
      return Ok(confirmed);
    }

    /** Both checks, in the order the claiming phases make them. */
    method KeepFundings(record: Swap, takerReason: Loss, makerReason: Loss) returns (r: Result<bool, Error>)
      requires Valid() && Current(record, state) && record.takerFunding.Some? && record.makerFunding.Some?
      requires record.phase in {AsyncMakerFunded, AsyncTakerClaiming}
      modifies journal`trades, this`view, this`history, this`looks, this`state
      ensures Valid() && Drifted(old(view), view)
      ensures r == Ok(true) ==>
                && state.rec == old(state).rec && state.seen == old(state).seen.(taker := Some(true), maker := Some(true))
                && Current(record, state) && (steady ==> view.taker.confirmed && view.maker.confirmed)
      ensures r == Ok(false) ==> LostFunding(old(view))
      ensures r.Ok? ==> old(history) <= history
      ensures r == Ok(true) ==> history == old(history) + [SawFunding(Taker, true)] + [SawFunding(Maker, true)]
    {
      hide Valid, LossText, Replay, Evidence, Current, Grows;
      var takerKept :- KeepTakerFunding(record, takerReason);
      if !takerKept {
        return Ok(false);
      }
      ghost var before := view;
      r := KeepMakerFunding(record, makerReason);
      DriftTransitive(old(view), before, view);
      StaysConfirmed(before, view);
      WasUnconfirmed(old(view), before);
    }

    /** A funding found unconfirmed has sent the swap back to where it is awaited. */
    ghost predicate LostFunding(before: View)
      reads this
    {
      || (state.rec.phase == AsyncTakerFunding && state.seen.taker == Some(false) && (steady ==> !before.taker.confirmed))
      || (state.rec.phase == AsyncMakerFunding && state.seen.taker == Some(true) && state.seen.maker == Some(false) &&
          (steady ==> !before.maker.confirmed && view.taker.confirmed))
    }

    method DriveTakerFunding(record: Swap) returns (r: Result<bool, Error>)
      requires At(record, AsyncTakerFunding)
      modifies journal`trades, this`view, this`history, this`looks, this`state
      ensures Valid() && Drifted(old(view), view) && (r == Ok(true) ==> Closer(record, old(view)))
      ensures r.Ok? ==> Leads(FromTakerFunding(state.seen), AsyncTakerFunding, r.value)
      ensures r.Ok? ==> Did(old(state).rec, old(history))
      ensures r.Ok? ==> state.rec.takerFundingSubmitted
    {
      hide Valid, LossText, Replay, Evidence, Current, Grows, Rank, MayRewind, ValidRewind, MayAdvance, ValidAdvance, TakerFundingDone;
      CurrentFacts(record, state);
      var confirmed :- ConfirmTakerFunding(record);
      CurrentFacts(record, state);
      if !confirmed {
        return Ok(false);
      }
      EntersTakerFunded(state);
      ghost var watched := history;
      var advanced :- Advance(AsyncTakerFunding, AsyncTakerFunded);
      DidThenWrote(old(state).rec, old(history), watched);
      ForwardIsCloser(record, old(view), state.rec, view);
      return Ok(true);
    }

    /** Look for the taker's funding; publish it when it is not confirmed; either way it is now out. */
    method ConfirmTakerFunding(record: Swap) returns (r: Result<bool, Error>)
      requires At(record, AsyncTakerFunding)
      modifies journal`trades, this`view, this`history, this`looks, this`state
      ensures Valid() && Drifted(old(view), view)
      ensures r.Ok? ==> Current(record, state) && state.rec.takerFundingSubmitted && state.seen.taker == Some(r.value)
      ensures r == Ok(true) ==> view.taker.confirmed
      ensures r.Ok? ==> old(history) <= history && TakerFundingDone(history[|old(history)|..])
    {
      hide Valid, LossText, Replay, Evidence, Current, Grows, TakerFundingDone;
      r := ObserveFunding(record, Taker);
      CurrentSameRecord(record, old(state), state);
      CurrentFacts(record, state);
      if r == Ok(true) && !record.takerFundingSubmitted {
        r := MarkSubmitted(record);
      } else if r == Ok(false) {
        ghost var before := view;
        r := PublishTakerFunding(record);
        DriftTransitive(old(view), before, view);
        if r.Ok? {
          TakerFundingPublished(old(history), state.rec, r.value, history);
        }
        return;
      }
      if r.Ok? {
        TakerFundingSeen(old(history), history, state.rec);
      }
    }

    /** Publish the taker's signed funding, record that, and look again. */
    method PublishTakerFunding(record: Swap) returns (r: Result<bool, Error>)
      requires At(record, AsyncTakerFunding) && state.seen.taker == Some(false)
      modifies journal`trades, this`view, this`history, this`looks, this`state
      ensures Valid() && Drifted(old(view), view)
      ensures r.Ok? ==> Current(record, state) && state.rec.takerFundingSubmitted && state.seen.taker == Some(r.value)
      ensures r == Ok(true) ==> view.taker.confirmed
      ensures r.Ok? ==>
                history == old(history) + [SentTakerFunding] + [Wrote(state.rec)] + [SawFunding(Taker, r.value)]
    {
      hide Valid, LossText, Replay, Evidence, Current, Grows;
      CurrentFacts(record, state);
      var sent :- BroadcastAsyncTakerFunding();
      CurrentSameRecord(record, old(state), state);
      var marked :- MarkSubmitted(record);
      ghost var before, seen := state, view;
      r := ObserveFunding(record, Taker);
      CurrentSameRecord(record, before, state);
      DriftTransitive(old(view), seen, view);
    }

    method DriveTakerFunded(record: Swap) returns (r: Result<bool, Error>)
      requires At(record, AsyncTakerFunded)
      modifies journal`trades, this`view, this`history, this`looks, this`state
      ensures Valid() && Drifted(old(view), view) && (r == Ok(true) ==> Closer(record, old(view)))
      ensures r.Ok? ==> Leads(FromTakerFunded(state.seen), AsyncTakerFunded, r.value)
      ensures r.Ok? ==> Did(old(state).rec, old(history))
    {
      hide Valid, LossText, Replay, Evidence, Current, Grows, MayRewind, ValidRewind, MayAdvance, ValidAdvance, Does;
      CurrentFacts(record, state);
      var kept :- KeepTakerFunding(record, TakerFundingLost);
      if !kept {
        return Ok(true);
      }
      CurrentFacts(record, state);
      EntersMakerFunding(state);
      ghost var seen := history;
      FundingsConfirmed(old(state).rec, old(history), seen);
      var advanced :- Advance(AsyncTakerFunded, AsyncMakerFunding);
      DidThenWrote(old(state).rec, old(history), seen);
      return Ok(true);
    }

    method DriveMakerFunding(record: Swap) returns (r: Result<bool, Error>)
      requires At(record, AsyncMakerFunding)
      modifies journal`trades, journal`messages, journal`actions, this`view, this`history, this`looks, this`state
      ensures Valid() && Drifted(old(view), view) && (r == Ok(true) ==> Closer(record, old(view)))
      ensures r.Ok? ==> Leads(FromMakerFunding(state.rec.makerFunding.Some?, state.seen), AsyncMakerFunding, r.value)
      ensures r.Ok? ==> Did(old(state).rec, old(history))
    {
      hide Valid, LossText, Replay, Evidence, Current, Grows, Rank, Drifted, Does;
      CurrentFacts(record, state);
      var kept :- KeepTakerFunding(record, TakerFundingLostBeforeMaker);
      if !kept {
        FundingMovesCloser(record, old(view), state.rec, view);
        return Ok(true);
      }
      CurrentFacts(record, state);
      ghost var before, seen := view, history;
      if record.role.Maker? {
        var preparedResult := FundMakerSide(record);
        DriftTransitive(old(view), before, view);
        var prepared :- preparedResult;
      }
      DriftReflexive(before);
      StaysConfirmed(before, view);
      ghost var funded, side := view, history;
      r := AwaitMakerFunding();
      DriftTransitive(old(view), funded, view);
      StaysConfirmed(funded, view);
      if r.Ok? {
        MakerFundingRound(old(state).rec, old(history), seen, side, history);
      }
      FundingMovesCloser(record, old(view), state.rec, view);
    }

    /** The maker's part: template first, then its own funding. */
    method FundMakerSide(record: Swap) returns (r: Result<(), Error>)
      requires At(record, AsyncMakerFunding) && record.role.Maker? && state.seen.taker == Some(true)
      modifies journal`trades, journal`messages, journal`actions, this`view, this`history, this`looks, this`state
      ensures Valid() && Drifted(old(view), view)
      ensures state.seen.taker == Some(true) && state.rec.phase == AsyncMakerFunding && state.rec.role.Maker?
      ensures r.Ok? ==> state.rec.makerClaimTemplate.Some?
      ensures r.Ok? ==>
                && old(history) <= history && TemplateDelivered in history[|old(history)|..] && NoticeDelivered in history[|old(history)|..]
                && (old(state).rec.makerFunding.Some? || SentMakerFunding in history[|old(history)|..])
                && state.rec.makerFunding.Some?
    {
      hide Valid, LossText, Replay, Evidence, Current, Grows;
      CurrentFacts(record, state);
      var prepared := EnsureMakerClaimTemplate(record);
      CurrentFacts(record, state);
      if prepared.Err? {
        return prepared;
      }
      ValidKnows();
      var latest := journal.trades[id];
      CurrentRefl(latest, state);
      ghost var before := view;
      r := EnsureLocalFunding(latest);
      CurrentFacts(latest, state);
      DriftTransitive(old(view), before, view);
    }

    /** Nothing to do without a maker notice; else wait for its confirmations. */
    method AwaitMakerFunding() returns (r: Result<bool, Error>)
      requires Valid() && state.rec.phase == AsyncMakerFunding && state.seen.taker == Some(true)
      requires state.rec.role.Maker? ==> state.rec.makerClaimTemplate.Some?
      modifies journal`trades, this`view, this`history, this`looks, this`state
      ensures Valid() && Drifted(old(view), view)
      ensures state.seen.taker == Some(true)
      ensures r.Ok? ==> Leads(FromMakerFunding(state.rec.makerFunding.Some?, state.seen), AsyncMakerFunding, r.value)
      ensures r == Ok(true) ==> state.rec.phase == AsyncMakerFunded && view.maker.confirmed
      ensures r.Ok? ==> old(history) <= history && (old(state).rec.makerFunding.Some? ==> LooksAtFunding(history[|old(history)|..], Maker))
    {
      hide Valid, LossText, Replay, Evidence, Grows, MayRewind, ValidRewind, MayAdvance, ValidAdvance;
      DriftReflexive(view);
      ValidKnows();
      var latest := journal.trades[id];
      if latest.makerFunding.None? {
        return Ok(false);
      }
      var confirmed :- ObserveFunding(latest, Maker);
      Noted(old(history), SawFunding(Maker, confirmed), history);
      if !confirmed {
        return Ok(false);
      }
      EntersMakerFunded(state);
      var advanced :- Advance(AsyncMakerFunding, AsyncMakerFunded);
      Noted(old(history), SawFunding(Maker, confirmed), history);
      return Ok(true);
    }

    method DriveMakerFunded(record: Swap) returns (r: Result<bool, Error>)
      requires At(record, AsyncMakerFunded) && record.makerFunding.Some?
      modifies journal`trades, this`view, this`history, this`looks, this`state
      ensures Valid() && Drifted(old(view), view) && (r == Ok(true) ==> Closer(record, old(view)))
      ensures r.Ok? ==> Leads(FromMakerFunded(AwaitsTemplate(state.rec), state.seen), AsyncMakerFunded, r.value)
      ensures r.Ok? ==> Did(old(state).rec, old(history))
    {
      hide Valid, LossText, Replay, Evidence, Current, Grows, Rank, MayRewind, ValidRewind, MayAdvance, ValidAdvance, Does;
      CurrentFacts(record, state);
      var kept :- KeepFundings(record, TakerFundingLost, MakerFundingLost);
      if !kept {
        LostFundingIsCloser(record, old(view), state.rec, view);
        return Ok(true);
      }
      CurrentFacts(record, state);
      ghost var seen := history;
      FundingsConfirmed(old(state).rec, old(history), seen);
      if record.role.Taker? && record.makerClaimTemplate.None? {
        return Ok(false);
      }
      EntersTakerClaiming(state);
      var advanced :- Advance(AsyncMakerFunded, AsyncTakerClaiming);
      DidThenWrote(old(state).rec, old(history), seen);
      if steady {
        ForwardIsCloser(record, old(view), state.rec, view);
      }
      return Ok(true);
    }

    method DriveTakerClaiming(record: Swap) returns (r: Result<bool, Error>)
      requires At(record, AsyncTakerClaiming) && record.makerFunding.Some?
      modifies journal`trades, journal`actions, this`view, this`history, this`looks, this`state
      ensures Valid() && Drifted(old(view), view) && (r == Ok(true) ==> Closer(record, old(view)))
      ensures r.Ok? ==> Leads(FromTakerClaiming(AwaitsTemplate(state.rec), state.seen), AsyncTakerClaiming, r.value)
      ensures r == Ok(true) && state.rec.phase == AsyncTakerClaimed ==>
                ClaimedOn(view, Maker) && state.rec.revealedSecret == view.maker.spend.secret
      ensures r.Ok? ==> Did(old(state).rec, old(history))
    {
      hide Valid, LossText, Replay, Evidence, Current, Grows, Rank, Does, TakerSideDone, FirstLook;
      CurrentFacts(record, state);
      var kept :- KeepFundings(record, TakerFundingLostBeforeClaim, MakerFundingLostBeforeClaim);
      if !kept {
        LostFundingIsCloser(record, old(view), state.rec, view);
        return Ok(true);
      }
      CurrentFacts(record, state);
      ghost var seen, confirmed := view, history;
      if record.role.Taker? {
        if record.makerClaimTemplate.None? {
          AwaitingRound(old(state).rec, old(history), history);
          return Ok(false);
        }
        var claimedResult := ClaimAsTaker(record);
        DriftTransitive(old(view), seen, view);
        var claimed :- claimedResult;
      }
      DriftReflexive(seen);
      StaysConfirmed(seen, view);
      ghost var claimed, side := view, history;
      r := AwaitTakerClaim(record);
      DriftTransitive(old(view), claimed, view);
      StaysConfirmed(claimed, view);
      if r.Ok? {
        TakerClaimingRound(old(state).rec, old(history), confirmed, side, history);
      }
      if r == Ok(true) && steady {
        ForwardIsCloser(record, old(view), state.rec, view);
      }
    }

    /** The taker's part: its own claim, which reveals the secret, then the maker's completed claim. */
    method ClaimAsTaker(record: Swap) returns (r: Result<(), Error>)
      requires At(record, AsyncTakerClaiming) && record.role.Taker? && record.makerClaimTemplate.Some?
      requires state.seen.taker == Some(true) && state.seen.maker == Some(true)
      modifies journal`actions, this`view, this`history, this`looks, this`state
      ensures Valid() && Drifted(old(view), view)
      ensures r.Ok? ==>
                && Current(record, state) && state.seen.ownClaimSent
                && state.seen.taker == Some(true) && state.seen.maker == Some(true)
      ensures r.Ok? ==> old(history) <= history && TakerSideDone(history[|old(history)|..])
    {
      hide Valid, LossText, Replay, Evidence, Current, Grows, PublishesProxy;
      CurrentFacts(record, state);
      ValidKnows();
      PhaseEvidence(crypto, state);
      var claimed :- EnsureLocalClaim(record);
      CurrentSameRecord(record, old(state), state);
      ghost var before, seen, revealed := state, view, history;
      r := BroadcastProxyMakerClaim(record);
      CurrentSameRecord(record, before, state);
      DriftTransitive(old(view), seen, view);
      if r.Ok? {
        TakerClaimedSide(old(history), revealed, history);
      }
    }

    /** Once the taker's claim is visible, so is the secret. */
    method AwaitTakerClaim(record: Swap) returns (r: Result<bool, Error>)
      requires At(record, AsyncTakerClaiming) && state.seen.taker == Some(true) && state.seen.maker == Some(true)
      requires record.role.Taker? ==> state.seen.ownClaimSent && record.makerClaimTemplate.Some?
      modifies journal`trades, this`view, this`history, this`looks, this`state
      ensures Valid() && Drifted(old(view), view)
      ensures state.seen.taker == Some(true) && state.seen.maker == Some(true)
      ensures r.Ok? ==> Leads(FromTakerClaiming(AwaitsTemplate(state.rec), state.seen), AsyncTakerClaiming, r.value)
      ensures r == Ok(true) ==>
                && state.rec.phase == AsyncTakerClaimed && ClaimedOn(view, Maker)
                && state.rec.revealedSecret == view.maker.spend.secret
      ensures r.Ok? ==> old(history) <= history && FirstLook(history[|old(history)|..], Taker).Some?
    {
      hide FromTakerClaiming, FirstLook, Valid, LossText, Replay, Evidence, Current, Grows, MayRewind, ValidRewind,
        MayAdvance, ValidAdvance;
      var claim :- ObserveClaim(record, Taker);
      CurrentSameRecord(record, old(state), state);
      CurrentFacts(record, state);
      TakerClaimingDecides(AwaitsTemplate(state.rec), state.seen);
      LookNoted(old(history), Taker, claim.0, history);
      if !claim.0.found {
        return Ok(false);
      }
      r := TakeSecret(record, claim.1);
      if r.Ok? {
        LookNoted(old(history), Taker, claim.0, history);
      }
    }

    /** The secret of a visible claim is journaled before the phase changes. */
    method TakeSecret(record: Swap, revealed: string) returns (r: Result<bool, Error>)
      requires Valid() && Current(record, state) && record.phase == AsyncTakerClaiming && record.agreement.Some?
      requires state.seen.taker == Some(true) && state.seen.maker == Some(true) && Found(state.seen.takerClaim)
      requires record.role.Taker? ==> state.seen.ownClaimSent
      modifies journal`trades, this`history, this`looks, this`state
      ensures Valid() && state.seen == old(state).seen
      ensures r.Ok? ==>
                && r.value && state.rec.phase == AsyncTakerClaimed && state.rec.revealedSecret == revealed
                && AwaitsTemplate(state.rec) == AwaitsTemplate(old(state).rec)
      ensures r.Ok? ==> old(history) <= history
    {
      hide Valid, LossText, Replay, Evidence, Current, Found, MayRewind, ValidRewind, MayAdvance, ValidAdvance;
      CurrentFacts(record, state);
      var saved :- RevealSecret(record, revealed);
      CurrentFacts(record, state);
      EntersTakerClaimed(state);
      var advanced :- Advance(AsyncTakerClaiming, AsyncTakerClaimed);
      return Ok(true);
    }

    method DriveTakerClaimed(record: Swap) returns (r: Result<bool, Error>)
      requires At(record, AsyncTakerClaimed) && record.makerFunding.Some?
      modifies journal`trades, this`view, this`history, this`looks, this`state
      ensures Valid() && Drifted(old(view), view) && (r == Ok(true) ==> Closer(record, old(view)))
      ensures r.Ok? ==> Leads(FromTakerClaimed(state.seen), AsyncTakerClaimed, r.value)
      ensures r.Ok? ==> Did(old(state).rec, old(history))
    {
      hide FromTakerClaimed, Valid, LossText, Replay, Evidence, Current, Grows, Rank, Did, Does, GoesOn, Drifted, MayAdvance, ValidAdvance,
        MayRewind, ValidRewind;
      CurrentFacts(record, state);
      var claim :- ObserveClaim(record, Taker);
      TakerClaimedDecides(state.seen);
      WasUnclaimed(old(view), view);
      if !claim.0.found {
        r := ReturnToTakerClaiming();
        if r.Ok? {
          LostClaimIsCloser(record, old(view), state.rec, view);
          RewindsGoBack(AsyncTakerClaimed, AsyncTakerClaiming);
          WentBack(old(state).rec, old(history));
        }
        return;
      }
      ghost var seen := history;
      ClaimLookedFor(old(state).rec, old(history), claim.0, seen);
      EntersMakerClaiming(state);
      var advanced :- Advance(AsyncTakerClaimed, AsyncMakerClaiming);
      DidThenWrote(old(state).rec, old(history), seen);
      if steady {
        DriftGrows(old(view), view);
        ClaimedForwardIsCloser(record, old(view), state.rec, view);
      }
      return Ok(true);
    }

    method ReturnToTakerClaiming() returns (r: Result<bool, Error>)
      requires Valid() && state.rec.phase == AsyncTakerClaimed && Absent(state.seen.takerClaim)
      modifies journal`trades, this`history, this`looks, this`state
      ensures Valid() && state.seen == old(state).seen && old(history) <= history
      ensures r.Ok? ==> r.value && state.rec.phase == AsyncTakerClaiming
    {
      hide Valid, LossText, Replay, Evidence, MayRewind, ValidRewind, Absent;
      ReturnsToTakerClaiming(state);
      var rewound :- Rewind(AsyncTakerClaimed, AsyncTakerClaiming, TakerClaimLost);
      return Ok(true);
    }

    method DriveMakerClaiming(record: Swap) returns (r: Result<bool, Error>)
      requires At(record, AsyncMakerClaiming) && record.makerFunding.Some?
      modifies journal`trades, journal`actions, this`view, this`history, this`looks, this`state
      ensures Valid() && Drifted(old(view), view) && (r == Ok(true) ==> Closer(record, old(view)))
      ensures r.Ok? ==> Leads(FromMakerClaiming(state.seen), AsyncMakerClaiming, r.value)
      ensures r.Ok? ==> Did(old(state).rec, old(history))
    {
      hide FromMakerClaiming, Valid, LossText, Replay, Evidence, Current, Grows, Rank, Did, Does, MakerSideDone, MayAdvance, ValidAdvance,
        MayRewind, ValidRewind;
      CurrentFacts(record, state);
      var takerClaim :- ObserveClaim(record, Taker);
      CurrentSameRecord(record, old(state), state);
      MakerClaimingDecides(state.seen);
      WasUnclaimed(old(view), view);
      if !takerClaim.0.found {
        ReturnsToTakerClaiming(state);
        var rewound :- Rewind(AsyncMakerClaiming, AsyncTakerClaiming, TakerClaimLost);
        LostClaimIsCloser(record, old(view), state.rec, view);
        WentBack(old(state).rec, old(history));
        return Ok(true);
      }
      ghost var before, seen := view, history;
      r := ObserveMakerSide(record, takerClaim.0.confirmed);
      DriftTransitive(old(view), before, view);
      WasUnconfirmed(old(view), before);
      StaysSettled(before, view);
      if r.Ok? {
        MakerClaimingEnds(old(state).rec, old(history), takerClaim.0, seen);
      }
      ClaimingEndsCloser(record, old(view), state.rec, view);
    }

    /** A maker claim that is already visible only has to settle. */
    method ObserveMakerSide(record: Swap, takerSettled: bool) returns (r: Result<bool, Error>)
      requires At(record, AsyncMakerClaiming) && state.seen.takerClaim == Some(ClaimView(true, takerSettled))
      modifies journal`trades, journal`actions, this`view, this`history, this`looks, this`state
      ensures Valid() && Drifted(old(view), view)
      ensures r == Ok(true) ==>
                || (state.rec.phase == AsyncTakerFunding && (steady ==> !old(view).taker.confirmed))
                || (state.rec.phase == Complete && takerSettled && ClaimSettledOn(view, Taker))
      ensures r.Ok? ==> Leads(FromMakerClaiming(state.seen), AsyncMakerClaiming, r.value)
      ensures r.Ok? ==>
                && old(history) <= history
                && (GoesOn(AsyncMakerClaiming, state.rec.phase) ==> MakerSideDone(record.role, history[|old(history)|..]))
    {
      hide FromMakerClaiming, Valid, LossText, Replay, Evidence, Current, Grows, MakerSideDone, MakerClaimMade, MayRewind, ValidRewind,
        MayAdvance, ValidAdvance;
      var makerClaim :- ObserveClaim(record, Maker);
      CurrentSameRecord(record, old(state), state);
      CurrentFacts(record, state);
      MakerClaimingDecides(state.seen);
      ghost var seen := history;
      if makerClaim.0.found {
        MakerSideRound(record.role, old(history), makerClaim.0, seen, history);
        if !makerClaim.0.confirmed || !takerSettled {
          return Ok(false);
        }
        EntersComplete(state);
        var completed :- Advance(AsyncMakerClaiming, Complete);
        MakerSideRound(record.role, old(history), makerClaim.0, seen, history);
        return Ok(true);
      }
      ghost var before := view;
      r := ClaimMakerSide(record, takerSettled);
      DriftTransitive(old(view), before, view);
      WasUnconfirmed(old(view), before);
      if r.Ok? && GoesOn(AsyncMakerClaiming, state.rec.phase) {
        MakerSideRound(record.role, old(history), makerClaim.0, seen, history);
      }
    }

    /** Neither side of the maker's claim is visible yet: each party publishes what it has. */
    method ClaimMakerSide(record: Swap, takerSettled: bool) returns (r: Result<bool, Error>)
      requires At(record, AsyncMakerClaiming) && Absent(state.seen.makerClaim)
      requires state.seen.takerClaim == Some(ClaimView(true, takerSettled))
      modifies journal`trades, journal`actions, this`view, this`history, this`looks, this`state
      ensures Valid() && Drifted(old(view), view)
      ensures r == Ok(true) ==>
                || (state.rec.phase == AsyncTakerFunding && (steady ==> !old(view).taker.confirmed))
                || (state.rec.phase == Complete && takerSettled && ClaimSettledOn(view, Taker))
      ensures r.Ok? ==> Leads(FromMakerClaiming(state.seen), AsyncMakerClaiming, r.value)
      ensures r.Ok? ==>
                && old(history) <= history
                && (GoesOn(AsyncMakerClaiming, state.rec.phase) ==>
                      SawFunding(Taker, true) in history[|old(history)|..] && MakerClaimMade(record.role, history[|old(history)|..]))
    {
      hide FromMakerClaiming, Valid, LossText, Replay, Evidence, Current, Grows, PublishesProxy, MakerClaimMade, FirstLook;
      var kept :- KeepTakerFunding(record, TakerFundingLostBeforeMakerClaim);
      MakerClaimingDecides(state.seen);
      if !kept {
        return Ok(true);
      }
      ghost var before, confirmed := view, history;
      var sentResult := PublishMakerClaim(record);
      DriftTransitive(old(view), before, view);
      var sent :- sentResult;
      ghost var published, handed := view, history;
      r := SettleMakerClaim(record, takerSettled);
      DriftTransitive(old(view), published, view);
      if r.Ok? {
        MakerClaimRound(record.role, old(history), confirmed, handed, history);
      }
    }

    method PublishMakerClaim(record: Swap) returns (r: Result<(), Error>)
      requires At(record, AsyncMakerClaiming) && Absent(state.seen.makerClaim)
      requires Found(state.seen.takerClaim) && state.seen.taker == Some(true)
      modifies journal`actions, this`view, this`history, this`looks, this`state
      ensures Valid() && Drifted(old(view), view) && Current(record, state)
      ensures state.seen.takerClaim == old(state).seen.takerClaim && state.seen.taker == Some(true)
      ensures r.Ok? ==>
                && old(history) <= history
                && if record.role.Maker? then history[|old(history)|..] == [SentClaim(Maker)] else PublishesProxy(history[|old(history)|..])
    {
      hide Valid, LossText, Replay, Evidence, Current, Grows;
      CurrentFacts(record, state);
      ValidKnows();
      PhaseEvidence(crypto, state);
      if record.role.Maker? {
        r := EnsureLocalClaim(record);
      } else {
        r := BroadcastProxyMakerClaim(record);
      }
      CurrentSameRecord(record, old(state), state);
    }

    method SettleMakerClaim(record: Swap, takerSettled: bool) returns (r: Result<bool, Error>)
      requires At(record, AsyncMakerClaiming) && state.seen.takerClaim == Some(ClaimView(true, takerSettled))
      requires state.seen.taker == Some(true)
      modifies journal`trades, this`view, this`history, this`looks, this`state
      ensures Valid() && Drifted(old(view), view)
      ensures r == Ok(true) ==> state.rec.phase == Complete && takerSettled && ClaimSettledOn(view, Taker)
      ensures r.Ok? ==> Leads(FromMakerClaiming(state.seen), AsyncMakerClaiming, r.value)
      ensures r.Ok? ==> old(history) <= history && FirstLook(history[|old(history)|..], Maker).Some?
    {
      hide FromMakerClaiming, FirstLook, Valid, LossText, Replay, Evidence, Current, Grows, MayRewind, ValidRewind,
        MayAdvance, ValidAdvance;
      CurrentFacts(record, state);
      var makerClaim :- ObserveClaim(record, Maker);
      MakerClaimingDecides(state.seen);
      LookNoted(old(history), Maker, makerClaim.0, history);
      if !makerClaim.0.found || !makerClaim.0.confirmed || !takerSettled {
        return Ok(false);
      }
      EntersComplete(state);
      var completed :- Advance(AsyncMakerClaiming, Complete);
      LookNoted(old(history), Maker, makerClaim.0, history);
      return Ok(true);
    }

    method DriveComplete(record: Swap) returns (r: Result<bool, Error>)
      requires At(record, Complete) && record.makerFunding.Some?
      modifies journal`trades, this`view, this`history, this`looks, this`state
      ensures Valid() && Drifted(old(view), view) && (r == Ok(true) ==> Closer(record, old(view)))
      ensures r.Ok? ==> Leads(FromComplete(state.seen), Complete, r.value)
      ensures r.Ok? ==> Did(old(state).rec, old(history))
    {
      hide FromComplete, Valid, LossText, Replay, Evidence, Current, Grows, Rank, Did, Drifted, MayRewind, ValidRewind,
        MayAdvance, ValidAdvance, Does, GoesOn;
      CurrentFacts(record, state);
      var takerClaim :- ObserveClaim(record, Taker);
      CurrentSameRecord(record, old(state), state);
      CompleteDecides(state.seen);
      WasUnsettled(old(view), view);
      if !takerClaim.0.found || !takerClaim.0.confirmed {
        r := ReopenTakerClaim();
        if r.Ok? {
          LostClaimIsCloser(record, old(view), state.rec, view);
          CompleteEnds(old(state).rec, old(history), true);
        }
        return;
      }
      ghost var before := view;
      r := KeepMakerClaim(record);
      if r.Ok? {
        CompleteEnds(old(state).rec, old(history), r.value);
      }
      DriftTransitive(old(view), before, view);
      WasUnsettled(old(view), view);
      LostClaimIsCloser(record, old(view), state.rec, view);
    }

    method ReopenTakerClaim() returns (r: Result<bool, Error>)
      requires Valid() && state.rec.phase == Complete && Unsettled(state.seen.takerClaim)
      modifies journal`trades, this`history, this`looks, this`state
      ensures Valid() && state.seen == old(state).seen && old(history) <= history
      ensures r.Ok? ==> r.value && state.rec.phase == AsyncTakerClaiming
    {
      hide Valid, LossText, Replay, Evidence, MayRewind, ValidRewind;
      ReturnsToTakerClaiming(state);
      var rewound :- Rewind(Complete, AsyncTakerClaiming, TakerClaimUnsettled);
      return Ok(true);
    }

    /** The second half of the check on a completed swap. */
    method KeepMakerClaim(record: Swap) returns (r: Result<bool, Error>)
      requires At(record, Complete) && Settled(state.seen.takerClaim)
      modifies journal`trades, this`view, this`history, this`looks, this`state
      ensures Valid() && Drifted(old(view), view)
      ensures r.Ok? ==> Leads(FromComplete(state.seen), Complete, r.value)
      ensures r == Ok(true) ==> state.rec.phase == AsyncMakerClaiming && !ClaimSettledOn(view, Taker)
      ensures r == Ok(false) ==> history == old(history) + [SawClaim(Maker, ClaimView(true, true))]
      ensures r.Ok? ==> old(history) <= history
    {
      hide FromComplete, Valid, LossText, Replay, Evidence, Current, Grows, MayRewind, ValidRewind;
      CurrentFacts(record, state);
      var makerClaim :- ObserveClaim(record, Maker);
      CompleteDecides(state.seen);
      if makerClaim.0.found && makerClaim.0.confirmed {
        return Ok(false);
      }
      r := ReopenMakerClaim();
    }

    method ReopenMakerClaim() returns (r: Result<bool, Error>)
      requires Valid() && state.rec.phase == Complete && Settled(state.seen.takerClaim)
      requires Unsettled(state.seen.makerClaim)
      modifies journal`trades, this`history, this`looks, this`state
      ensures Valid() && state.seen == old(state).seen
      ensures r.Ok? ==> r.value && state.rec.phase == AsyncMakerClaiming
      ensures old(history) <= history
    {
      hide Valid, LossText, Replay, Evidence, MayRewind, ValidRewind;
      ReturnsToMakerClaiming(state);
      var rewound :- Rewind(Complete, AsyncMakerClaiming, MakerClaimUnsettled);
      return Ok(true);
    }

    method DriveWaitingForRefund(record: Swap) returns (r: Result<bool, Error>)
      requires At(record, WaitingForRefund)
      modifies journal`trades, this`history, this`looks, this`state
      ensures Valid() && (r == Ok(true) ==> Closer(record, view))
      ensures r.Ok? ==> Leads(Some(Refunding), WaitingForRefund, r.value)
      ensures r.Ok? ==> Did(old(state).rec, old(history))
    {
      hide Valid, LossText, Replay, Evidence, Current, Grows, MayWaitForRefund, MayExpire, MayRewind, ValidRewind;
      CurrentFacts(record, state);
      var advanced :- Advance(WaitingForRefund, Refunding);
      return Ok(true);
    }

    method DriveRefunding(record: Swap) returns (r: Result<bool, Error>)
      requires At(record, Refunding) && record == state.rec
      modifies journal`trades, journal`actions, this`view, this`history, this`looks, this`state
      ensures Valid() && Drifted(old(view), view) && (r == Ok(true) ==> Closer(record, old(view)))
      ensures r.Ok? ==> Leads(FromRefunding(RefundSeen(state.seen, RefundLeg(state.rec))), Refunding, r.value)
      ensures r.Ok? ==> Did(old(state).rec, old(history))
    {
      hide Valid, LossText, Replay, Evidence, Current, Grows, MayRewind, ValidRewind, MayAdvance, ValidAdvance, RefundDone;
      var refunded :- EnsureLocalRefund(record);
      if !refunded {
        return Ok(false);
      }
      EntersRefunded(state);
      ghost var handled := history;
      var advanced :- Advance(Refunding, Refunded);
      DidThenWrote(old(state).rec, old(history), handled);
      return Ok(true);
    }

    method DriveRefunded(record: Swap) returns (r: Result<bool, Error>)
      requires At(record, Refunded) && record == state.rec
      modifies journal`trades, this`view, this`history, this`looks, this`state
      ensures Valid() && Drifted(old(view), view) && (r == Ok(true) ==> Closer(record, old(view)))
      ensures r.Ok? ==> Leads(FromRefunded(RefundSeen(state.seen, RefundLeg(state.rec))), Refunded, r.value)
      ensures r.Ok? ==> Did(old(state).rec, old(history))
    {
      hide Valid, LossText, Replay, Evidence, Current, MayAdvance, ValidAdvance, MayRewind, ValidRewind;
      var confirmed :- RefundStateConfirmed(record);
      if confirmed {
        return Ok(false);
      }
      ReturnsToRefunding(state);
      var rewound :- Rewind(Refunded, Refunding, RefundLost);
      return Ok(true);
    }

    // ----- initialization

    /** initializeAsyncSwap: the agreement both parties derive, the taker's funding, the first phase. */
    method Initialize(record: Swap) returns (r: Result<(), Error>)
      requires Valid() && record == state.rec && record.phase == Matched
      modifies journal`trades, this`history, this`looks, this`state
      ensures Valid() && (r.Ok? ==> state.rec.phase == AsyncTakerFunding)
      ensures r.Ok? ==>
                state.rec.agreement.Some? && state.rec.agreement == BuildAsyncAgreement(crypto, record.order, record.acceptance)
      ensures r.Ok? ==> state.rec.approved
    {
      hide Replay, Evidence, Extends, BuildAsyncAgreement, MayWaitForRefund, MayExpire, MayRewind, ValidRewind;
      var built := BuildAsyncAgreement(crypto, record.order, record.acceptance);
      if built.None? {
        return Err(Rejected);
      }
      var refused: bool := *;
      if refused {
        return Err(Rejected);
      }
      var agreed :- JournalAgreement(record, built.value);
      var noticed :- JournalTakerNotice();
      var advanced :- Advance(Matched, AsyncTakerFunding);
      if !journal.trades[id].approved {
        r := Approve();
        return;
      }
      return Ok(());
    }

    /** The agreement is stored once; a later pass must derive the very same one. */
    method JournalAgreement(record: Swap, agreement: Agreement) returns (r: Result<(), Error>)
      requires Valid() && record == state.rec && record.phase == Matched
      modifies journal`trades, this`history, this`looks, this`state
      ensures Valid() && state.rec.phase == Matched
      ensures r.Ok? ==> state.rec.agreement == Some(agreement)
    {
      hide Replay, Evidence, Extends, MaySet;
      var hash := tools.hashAgreement(agreement);
      if record.agreement.Some? {
        return if record.agreementHash != hash || record.agreement != Some(agreement) then Err(Rejected) else Ok(());
      }
      if Apply(crypto, state.rec, UAgreement(agreement.secretHash, hash, agreement, Matched)).Ok? {
        AgreementSettable(crypto, state, hash, agreement);
      }
      var saved :- Set(UAgreement(agreement.secretHash, hash, agreement, Matched));
      return Ok(());
    }

    /** asyncTakerFundingNotice, from the signed acceptance */
    method JournalTakerNotice() returns (r: Result<(), Error>)
      requires Valid() && state.rec.phase == Matched && state.rec.agreement.Some?
      modifies journal`trades, this`history, this`looks, this`state
      ensures Valid() && state.rec.phase == Matched && state.rec.agreement == old(state).rec.agreement
      ensures r.Ok? ==> state.rec.takerFunding.Some?
      ensures r.Ok? && old(state).rec.takerFunding.None? ==>
                var f := old(state).rec.acceptance.acceptance.funding;
                && (f.asset == "BTC" ==> |f.rawTransactions| == 1)
                && state.rec.takerFunding == Some(TakerNotice(f)) && NoticeValid(TakerNotice(f))
      ensures r.Ok? && old(state).rec.takerFunding.None? ==>
                var f, n := old(state).rec.acceptance.acceptance.funding, state.rec.takerFunding.value;
                && n.party == Taker && n.asset == f.asset && n.transactionID == f.transactionID
                && (n.asset == "BTC" ==> f.rawTransactions == [n.raw]) && (n.asset != "BTC" ==> n.raw == "")
    {
      hide Replay, Evidence, Extends, MaySet, TakerNotice, NoticeValid;
      var record := journal.trades[id];
      if record.takerFunding.Some? {
        return Ok(());
      }
      var funding := record.acceptance.acceptance.funding;
      if funding.asset == "BTC" && |funding.rawTransactions| != 1 {
        return Err(InvalidValue);
      }
      var notice := TakerNotice(funding);
      if !NoticeValid(notice) {
        return Err(InvalidValue);
      }
      TakerNoticeSays(funding);
      FundingApplies(crypto, state.rec, Taker, notice);
      FundingSettable(crypto, state, Taker, notice);
      var saved :- Set(UFunding(Taker, notice));
      return Ok(());
    }

    method Approve() returns (r: Result<(), Error>)
      requires Valid()
      modifies journal`trades, this`history, this`looks, this`state
      ensures Valid() && state.rec.phase == old(state).rec.phase
      ensures old(state).rec.agreement.Some? ==> state.rec.agreement == old(state).rec.agreement
      ensures r.Ok? ==> state.rec.approved
      ensures old(state).rec.phase == AsyncTakerFunding && old(state).rec.agreement.Some? ==> r == Ok(()) || r == Err(Interrupted)
    {
      hide Replay, Evidence, Extends;
      if Apply(crypto, state.rec, UApprove).Ok? {
        ApproveSettable(crypto, state);
      }
      var saved :- Set(UApprove);
      return Ok(());
    }

    // ----- the counterparty's messages

    /** The counterparty's messages add evidence, but none about this participant's own funding. */
    ghost predicate OwnSideKept(before: Swap, actions: map<string, Action>)
      reads this, journal
    {
      && state.rec.role == before.role && state.rec.phase == before.phase && state.rec.agreement == before.agreement
      && LocallyFunded(state.rec) == LocallyFunded(before)
      && (before.role.Maker? ==> journal.actions == actions)
    }

    /** processPeerMessages, on the decrypted messages in mailbox order */
    method ProcessPeerMessages(messages: seq<PeerMessage>) returns (r: Result<(), Error>)
      requires Valid() && state.rec.phase != Matched
      modifies journal`trades, journal`actions, this`view, this`history, this`looks, this`state
      ensures Valid() && Drifted(old(view), view) && OwnSideKept(old(state).rec, old(journal.actions))
      ensures messages == [] ==>
                r == Ok(()) && view == old(view) && state == old(state) && journal.actions == old(journal.actions)
      ensures r.Ok? ==> state.rec.secretHash != "" && forall k :: 0 <= k < |messages| ==> Taken(messages[k], state.rec)
    {
      hide Valid, LossText, Replay, Evidence, Grows, LocallyFunded, Taken, Extends;
      DriftReflexive(view);
      for i := 0 to |messages|
        invariant Valid() && Drifted(old(view), view) && OwnSideKept(old(state).rec, old(journal.actions))
        invariant forall k :: 0 <= k < i ==> Taken(messages[k], state.rec)
        invariant i == 0 ==> view == old(view) && state == old(state) && journal.actions == old(journal.actions)
      {
        ghost var before, earlier := view, state.rec;
        var handled := ProcessPeerMessage(messages[i]);
        DriftTransitive(old(view), before, view);
        if handled.Err? {
          return handled;
        }
        StillTaken(messages[..i], earlier, state.rec);
      }
      ValidKnows();
      HashKnown(crypto, state);
      return Ok(());
    }

    method ProcessPeerMessage(message: PeerMessage) returns (r: Result<(), Error>)
      requires Valid() && state.rec.phase != Matched
      modifies journal`trades, journal`actions, this`view, this`history, this`looks, this`state
      ensures Valid() && Drifted(old(view), view) && OwnSideKept(old(state).rec, old(journal.actions))
      ensures Extends(old(state).rec, state.rec) && old(state).rec.secretHash != ""
      ensures r.Ok? ==> Taken(message, state.rec)
    {
      hide Valid, LossText, Replay, Evidence, Grows, LocallyFunded;
      DriftReflexive(view);
      ValidKnows();
      StartedHasAgreement(crypto, state);
      HashKnown(crypto, state);
      ExtendsReflexive(state.rec);
      var record := journal.trades[id];
      match message {
        case HelloMessage =>
          var refused: bool := *;
          return if refused then Err(Rejected) else Ok(());
        case AgreementMessage =>
          return Err(Rejected);
        case AckMessage(hash) =>
          var foreign := record.role.Taker? || record.agreementHash == "" || hash != record.agreementHash;
          return if foreign then Err(Rejected) else Ok(());
        case FundingMessage(notice) =>
          r := AcceptFundingNotice(record, notice);
        case TemplateMessage(template) =>
          r := AcceptMakerClaimTemplate(record, template);
      }
    }

    /** acceptFundingNotice; a Bitcoin funding is also relayed to the network */
    method AcceptFundingNotice(record: Swap, notice: Notice) returns (r: Result<(), Error>)
      requires Valid() && record == state.rec && record.phase != Matched
      modifies journal`trades, this`view, this`history, this`looks, this`state
      ensures Valid() && Drifted(old(view), view) && OwnSideKept(old(state).rec, old(journal.actions))
      ensures Extends(old(state).rec, state.rec) && (r.Ok? ==> Taken(FundingMessage(notice), state.rec))
      ensures r.Ok? && notice.asset == "BTC" ==> history == old(history) + [RelayedPeerFunding] + [Wrote(state.rec)]
    {
      hide Replay, Evidence, Grows, Extends, Apply, MaySet;
      DriftReflexive(view);
      ExtendsReflexive(state.rec);
      if record.agreement.None? || notice.party != Opposite(record.role)
         || notice.asset != AssetFundedBy(record.agreement.value, notice.party) {
        return Err(Rejected);
      }
      if notice.asset == "BTC" {
        var refused: bool := *;
        if refused {
          return Err(Rejected);
        }
        var relayed :- Submit(RelayedPeerFunding);
      }
      ghost var before := state;
      if Apply(crypto, state.rec, UFunding(notice.party, notice)).Ok? {
        FundingSettable(crypto, state, notice.party, notice);
        FundingIsStored(crypto, state.rec, notice.party, notice);
        PeerFundingKeeps(crypto, state.rec, notice);
      }
      var saved :- Set(UFunding(notice.party, notice));
      SetExtends(crypto, before, state.rec);
      return Ok(());
    }

    /** acceptMakerClaimTemplate: complete it with the secret, journal the result, then the template */
    method AcceptMakerClaimTemplate(record: Swap, template: Template) returns (r: Result<(), Error>)
      requires Valid() && record == state.rec && record.phase != Matched
      modifies journal`trades, journal`actions, this`history, this`looks, this`state
      ensures Valid() && OwnSideKept(old(state).rec, old(journal.actions))
      ensures r.Ok? ==> state.rec.role.Taker? && state.rec.makerClaimTemplate == Some(template) && state.proxyReady
      ensures r.Ok? && ActionID(id, MakerClaimProxy) !in old(journal.actions) ==>
                && record.agreement.Some? && record.takerFunding.Some?
                && var completed := tools.complete(record.agreement.value, record.takerFunding.value, template, tools.secret);
                   completed.Some? && ProxyHolds(template, completed.value)
      ensures Extends(old(state).rec, state.rec) && (r.Ok? ==> Taken(TemplateMessage(template), state.rec))
      ensures r.Ok? && ActionID(id, MakerClaimProxy) !in old(journal.actions) ==>
                record.agreement.Some? && Opens(crypto, tools.secret, record.agreement.value.secretHash)
    {
      hide Replay, Evidence, Extends, Apply, MaySet, Opens;
      StartedHasAgreement(crypto, state);
      ExtendsReflexive(state.rec);
      var funding := record.takerFunding.value;
      if record.role.Maker? || template.asset != funding.asset || template.fundingTransactionID != funding.transactionID {
        return Err(Rejected);
      }
      if ActionID(id, MakerClaimProxy) !in journal.actions {
        if !Opens(crypto, tools.secret, record.agreement.value.secretHash) {
          return Err(Rejected);
        }
        var refused: bool := *;
        var completed := tools.complete(record.agreement.value, funding, template, tools.secret);
        if refused || completed.None? {
          return Err(Rejected);
        }
        var prepared :- PrepareProxyClaim(template, completed.value);
      }
      r := StoreTemplate(template);
    }

    /** SetMakerClaimTemplate, for the template of the taker's own funding. */
    method StoreTemplate(template: Template) returns (r: Result<(), Error>)
      requires Valid() && state.rec.phase != Matched && state.rec.role.Taker? && state.proxyReady
      requires state.rec.takerFunding.Some? && template.asset == state.rec.takerFunding.value.asset
      requires template.fundingTransactionID == state.rec.takerFunding.value.transactionID
      modifies journal`trades, this`history, this`looks, this`state
      ensures Valid() && OwnSideKept(old(state).rec, journal.actions) && Extends(old(state).rec, state.rec)
      ensures state.proxyReady
      ensures r.Ok? ==> Taken(TemplateMessage(template), state.rec) && state.rec.makerClaimTemplate == Some(template)
    {
      hide Replay, Evidence, Extends, Apply, MaySet;
      ExtendsReflexive(state.rec);
      HashKnown(crypto, state);
      if Apply(crypto, state.rec, UTemplate(template)).Ok? {
        TemplateSettable(crypto, state, template);
        TemplateIsStored(crypto, state.rec, template);
      }
      ghost var before := state;
      var saved :- Set(UTemplate(template));
      SetExtends(crypto, before, state.rec);
      return Ok(());
    }

    /** The journaled proxy claim is the completed template, under the template's transaction ID. */
    ghost predicate ProxyHolds(template: Template, completed: string)
      reads journal
    {
      var actionID := ActionID(id, MakerClaimProxy);
      actionID in journal.actions &&
      journal.actions[actionID] ==
      Action(actionID, id, KindText(MakerClaimProxy), template.asset, completed, template.transactionID, Prepared, 0)
    }

    /** The completed claim is journaled before the template that allows the taker to go on. */
    method PrepareProxyClaim(template: Template, completed: string) returns (r: Result<Action, Error>)
      requires Valid() && state.rec.role.Taker? && ActionID(id, MakerClaimProxy) !in journal.actions
      modifies journal`actions, this`history, this`looks, this`state
      ensures Valid() && state.rec == old(state).rec
      ensures r.Ok? ==> state.proxyReady && ProxyHolds(template, completed)
      ensures r.Err? ==> journal.actions == old(journal.actions)
    {
      hide Replay, Evidence;
      var actionID := ActionID(id, MakerClaimProxy);
      r := journal.PrepareAction(
        Action(actionID, id, KindText(MakerClaimProxy), template.asset, completed, template.transactionID, Prepared, 0));
      if r.Ok? {
        Log(ProxyJournaled);
      }
    }

    // ----- the pass

    /** One round of the loop on the record as it was read. */
    method DriveRound(record: Swap) returns (round: Round)
      requires Valid() && record == state.rec && record.phase != Matched && record.agreement.Some?
      requires state.seen == NOTHING_SEEN
      modifies journal`trades, journal`messages, journal`actions, this`view, this`history, this`looks, this`state
      ensures Valid() && round != LegacyPhase
      ensures !ValidateAsync(crypto, record.agreement.value, record.order, record.acceptance) ==> round.Stopped?
      ensures round == Again ==> Closer(record, old(view))
      ensures round == Again ==>
                || (Running(record.phase) && state.rec.phase in {WaitingForRefund, Expired})
                || Leads(Decision(record.phase, state), record.phase, true)
      ensures round == Rest ==> Leads(Decision(record.phase, state), record.phase, false)
      ensures Sleeps(record, old(view), old(journal.actions)) ==>
                DormantRound(crypto, record, state.rec, round) && (round.Stopped? ==> journal.actions == old(journal.actions))
      ensures record.phase == Expired && TermsStand(crypto, record) ==> round == Rest && state.rec == record
      ensures round == Again || round == Rest ==>
                || (Running(record.phase) && state.rec.phase in {WaitingForRefund, Expired})
                || Did(record, old(history))
    {
      hide Decision, Valid, LossText, Replay, Evidence, Grows, Rank, Extends, ValidateAsync, Current, FundingUnsent,
        LocallyFunded, Did, ChecksSince, Drifted, OwnLegReached, StaysInSwap, Found, Absent, LiesDormant;
      ValidKnows();
      PhaseEvidence(crypto, state);
      CurrentRefl(record, state);
      if !ValidateAsync(crypto, record.agreement.value, record.order, record.acceptance) {
        return Stopped(Rejected);
      }
      DriftReflexive(view);
      NothingChecked(history, record.role);
      if !Terminal(record.phase) {
        var stopped: bool := *;
        if stopped {
          return Stopped(Interrupted);
        }
        var refunding := MaybeStartRefund(record);
        match refunding {
          case Err(e) => return Stopped(e);
          case Ok(started) =>
            if started {
              RefundIsCloser(record, old(view), state.rec, view);
              return Again;
            }
        }
      }
      CurrentFacts(record, state);
      ghost var before := view;
      round := DriveChecked(record, old(history));
      if round == Again && steady {
        DriftGrows(old(view), before);
        RankFalls(record, old(view), before);
      }
    }

    /** The switch, after the checks. */
    method DriveChecked(record: Swap, ghost began: seq<Event>) returns (round: Round)
      requires Valid() && Current(record, state) && AsyncPhase(record.phase) && record.phase != Matched
      requires record.agreement.Some? && record.takerFunding.Some?
      requires MakerFundedOrLater(record.phase) ==> record.makerFunding.Some?
      requires !Running(record.phase) ==> record == state.rec
      requires ChecksSince(began, history, record.role)
      requires state.rec.makerFunding == record.makerFunding || SawRecovery(true) in history[|began|..]
      modifies journal`trades, journal`messages, journal`actions, this`view, this`history, this`looks, this`state
      ensures Valid() && round != LegacyPhase
      ensures round == Again ==> Closer(record, old(view))
      ensures round == Again || round == Rest ==> Leads(Decision(record.phase, state), record.phase, round == Again)
      ensures round == Again || round == Rest ==> Did(record, began)
      ensures record.phase == Expired ==> round == Rest && state == old(state)
    {
      hide Valid, Decision, Replay, Evidence, Current, Closer, Leads, Did;
      CurrentFacts(record, state);
      ghost var checked, now := history, state.rec;
      round := DrivePhase(record);
      if round == Again || round == Rest {
        DidAfterChecks(record, now, began, checked);
      }
    }

    /** The switch on the phase. */
    method DrivePhase(record: Swap) returns (round: Round)
      requires Valid() && Current(record, state) && AsyncPhase(record.phase) && record.phase != Matched
      requires record.agreement.Some? && record.takerFunding.Some?
      requires MakerFundedOrLater(record.phase) ==> record.makerFunding.Some?
      requires !Running(record.phase) ==> record == state.rec
      modifies journal`trades, journal`messages, journal`actions, this`view, this`history, this`looks, this`state
      ensures Valid() && round != LegacyPhase
      ensures round == Again ==> Closer(record, old(view))
      ensures round == Again || round == Rest ==> Leads(Decision(record.phase, state), record.phase, round == Again)
      ensures record.phase == Expired ==> round == Rest && state == old(state)
      ensures round == Again || round == Rest ==> Did(old(state).rec, old(history))
    {
      hide FromTakerFunding, FromTakerFunded, FromMakerFunding, FromMakerFunded, FromTakerClaiming, FromTakerClaimed,
        FromMakerClaiming, FromComplete, FromRefunding, FromRefunded;
      hide Valid, LossText, Replay, Evidence, Grows, Rank, Extends, Current, Drifted;
      var again: Result<bool, Error>;
      match record.phase {
        case AsyncTakerFunding => again := DriveTakerFunding(record);
        case AsyncTakerFunded => again := DriveTakerFunded(record);
        case AsyncMakerFunding => again := DriveMakerFunding(record);
        case AsyncMakerFunded => again := DriveMakerFunded(record);
        case AsyncTakerClaiming => again := DriveTakerClaiming(record);
        case AsyncTakerClaimed => again := DriveTakerClaimed(record);
        case AsyncMakerClaiming => again := DriveMakerClaiming(record);
        case Complete => again := DriveComplete(record);
        case WaitingForRefund => again := DriveWaitingForRefund(record);
        case Refunding => again := DriveRefunding(record);
        case Refunded => again := DriveRefunded(record);
        case Expired => again := Ok(false);
        case _ => return LegacyPhase;
      }
      match again {
        case Err(e) => return Stopped(e);
        case Ok(more) => return if more then Again else Rest;
      }
    }

    /** Idle as before, in the phase it was in. */
    ghost predicate StillIdle(before: Swap)
      reads this, journal
    {
      && IdleSwap(state.rec, journal.actions, id) && state.rec.phase == before.phase
      && state.rec.role == before.role && state.rec.agreement == before.agreement
    }

    /** What a pass does before its rounds: initialize a matched swap, then read the mailbox. */
    method Prepare(messages: seq<PeerMessage>) returns (r: Result<(), Error>)
      requires Valid()
      modifies journal`trades, journal`actions, this`view, this`history, this`looks, this`state
      ensures Valid() && (r.Ok? ==> state.rec.phase != Matched)
      ensures Running(old(state).rec.phase) ==>
                && Drifted(old(view), view) && OwnSideKept(old(state).rec, old(journal.actions))
                && (messages == [] ==> r == Ok(()) && view == old(view) && state.rec == old(state).rec)
                && (messages == [] ==> journal.actions == old(journal.actions))
      ensures r.Ok? ==> state.rec.secretHash != "" && forall k :: 0 <= k < |messages| ==> Taken(messages[k], state.rec)
    {
      hide Replay, Evidence, LocallyFunded, Drifted, Taken;
      Log(Iteration);
      var record := journal.trades[id];
      PhaseEvidence(crypto, state);
      if record.agreement.None? || record.phase == Matched {
        var initialized := Initialize(record);
        if initialized.Err? {
          return initialized;
        }
      }
      r := ProcessPeerMessages(messages);
    }

    ghost method MarkHere()
      requires Valid()
      modifies this`mark
      ensures Valid() && mark == history
      ensures Replay(crypto, origin, mark).Some? && Replay(crypto, origin, mark).value.rec == state.rec
    {
      hide Replay, Evidence, Reported;
      mark := history;
    }

    /** Whatever happened since, the record holds what it held at the mark. */
    lemma GrownSince(r: Swap)
      requires Valid() && Replay(crypto, origin, mark).Some? && Replay(crypto, origin, mark).value.rec == r
      ensures Extends(r, state.rec)
    {
      hide Replay, Evidence, Extends, Reported;
      assert history[..|mark|] == mark;
      RecordExtends(crypto, origin, history, |mark|);
    }

    /** driveAsyncSwap: a pass over one swap, at most sixteen rounds long. */
    method DriveAsyncSwap(messages: seq<PeerMessage>) returns (outcome: Outcome)
      requires Valid()
      modifies journal`trades, journal`messages, journal`actions, this`view, this`history, this`looks, this`state, this`mark
      ensures Valid() && start <= history && journal.trades - {id} == others
      ensures outcome == Quiet ==> Decision(state.rec.phase, state) == None
      ensures outcome != LegacyPhaseReached
      ensures steady ==> outcome != LimitReached
      ensures Sleeps(old(state).rec, old(view), old(journal.actions)) && messages == [] ==>
                DormantPass(crypto, old(state).rec, state.rec, outcome)
      ensures Sleeps(old(state).rec, old(view), old(journal.actions)) && old(state).rec.phase != AsyncTakerFunding ==>
                outcome.Failed? && StillIdle(old(state).rec)
      ensures outcome == Quiet ==> exists k :: |start| < k && CameToRest(crypto, origin, history, k)
      ensures outcome == Quiet ==> forall k :: 0 <= k < |messages| ==> Taken(messages[k], state.rec)
    {
      hide CameToRest, Decision, Replay, Evidence, Rank, Drifted, DormantError, LiesDormant, FundingUnsent, LocallyFunded, Taken;
      if Running(state.rec.phase) && !LocallyFunded(state.rec) && state.rec.phase != AsyncTakerFunding {
        IdleIsMaker(crypto, state);
      }
      var prepared := Prepare(messages);
      if Running(old(state).rec.phase) {
        StaysDormant(old(state).rec, old(view), view, journal.actions);
      }
      if prepared.Err? {
        return Failed(prepared.error);
      }
      MarkHere();
      ghost var taken := state.rec;
      outcome := DriveRounds();
      GrownSince(taken);
      StillTaken(messages, taken, state.rec);
    }

    lemma Resting(record: Swap, began: seq<Event>)
      requires Valid() && Did(record, began) && Leads(Decision(record.phase, state), record.phase, false)
      requires 0 < |began| && began[|began| - 1] == Iteration && |start| < |began|
      requires Accepted(crypto, origin, began) && Replay(crypto, origin, began).value.rec == record
      ensures |start| < |began| && CameToRest(crypto, origin, history, |began|)
    {
      hide Does, Evidence, Decision, Replay;
      assert history[..|began|] == began;
    }

    /** Its loop: every further round is closer to rest, so a steady pass never runs out of rounds. */
    method DriveRounds() returns (outcome: Outcome)
      requires Valid() && state.rec.phase != Matched
      modifies journal`trades, journal`messages, journal`actions, this`view, this`history, this`looks, this`state
      ensures Valid()
      ensures outcome == Quiet ==> Decision(state.rec.phase, state) == None
      ensures outcome != LegacyPhaseReached
      ensures steady ==> outcome != LimitReached
      ensures Sleeps(old(state).rec, old(view), old(journal.actions)) ==>
                && DormantPass(crypto, old(state).rec, state.rec, outcome)
                && (old(state).rec.phase != AsyncTakerFunding ==> journal.actions == old(journal.actions))
      ensures outcome == Quiet ==> exists k :: |start| < k && CameToRest(crypto, origin, history, k)
    {
      hide Valid, Decision, Replay, Evidence, Rank, Sleeps, ValidateAsync, Did, Does, CameToRest;
      RankFalls(state.rec, view, view);
      for i := 0 to ITERATIONS
        invariant Valid() && state.rec.phase != Matched
        invariant steady ==> i + Rank(state.rec, view) <= 13
        invariant i == 0 ==> state.rec == old(state).rec && view == old(view) && journal.actions == old(journal.actions)
        invariant i > 0 && Sleeps(old(state).rec, old(view), old(journal.actions)) ==>
                    i == 1 && TermsStand(crypto, old(state).rec) && ExpiredFrom(old(state).rec, state.rec)
      {
        var stopped: bool := *;
        if stopped {
          return Failed(Interrupted);
        }
        BeginRound();
        ghost var record, began := state.rec, history;
        var round := DriveRound(journal.trades[id]);
        match round {
          case Again =>
          case Rest =>
            Resting(record, began);
            return Quiet;
          case Stopped(e) => return Failed(e);
          case LegacyPhase => return LegacyPhaseReached;
        }
      }
      return LimitReached;
    }

    /** A new round knows nothing but the record. */
    ghost method BeginRound()
      requires Valid() && state.rec.phase != Matched
      modifies this`history, this`looks, this`state
      ensures Valid() && id in journal.trades && state.rec == old(state).rec == journal.trades[id]
      ensures state.seen == NOTHING_SEEN && history == old(history) + [Iteration] && |start| < |history|
      ensures Replay(crypto, origin, history) == Some(state) && state.rec.agreement.Some?
    {
      hide Replay, Evidence;
      Log(Iteration);
      PhaseEvidence(crypto, state);
    }
  }

  /** Whether nothing of this participant's is out and nothing new can be started, by the journal and the
      wallets' first answers of a pass. */
  predicate DormantStart(r: Swap, actions: map<string, Action>, id: string, dormant: Option<Dormant>, view: View) {
    && !r.relayMatchPending && IdleSwap(r, actions, id)
    && dormant == Some(Dormant(r.role, r.agreement.value)) && LiesDormant(view, dormant.value)
  }

  /** Past the first phase with no money of one's own: what no further pass gets out of. */
  predicate Stranded(before: Swap, after: Swap, actions: map<string, Action>, id: string) {
    && !after.relayMatchPending && IdleSwap(after, actions, id)
    && after.phase == before.phase && after.role == before.role && after.agreement == before.agreement
  }

  /** driveSwaps, for one record: a provisional match is skipped, any other is driven once. */
  method DriveSwap(crypto: Crypto, journal: Journal, id: string, tools: Tools, steady: bool, dormant: Option<Dormant>, view: View, messages: seq<PeerMessage>,
                   ghost origin: Swap, ghost history: seq<Event>, ghost looks: seq<View>)
    returns (outcome: Outcome, ghost after: seq<Event>, ghost seen: seq<View>)
    requires Reported(history, looks)
    requires Fresh(origin) && Accepted(crypto, origin, history) && journal.crypto == crypto && (steady ==> Coherent(view))
    requires id in journal.trades && id == journal.trades[id].id
    requires Replay(crypto, origin, history).value.rec == journal.trades[id]
    requires Replay(crypto, origin, history).value.proxyReady <==> ActionID(id, MakerClaimProxy) in journal.actions
    modifies journal`trades, journal`messages, journal`actions
    ensures history <= after && Accepted(crypto, origin, after) && Reported(after, seen)
    ensures id in journal.trades && id == journal.trades[id].id
    ensures Replay(crypto, origin, after).value.rec == journal.trades[id]
    ensures Replay(crypto, origin, after).value.proxyReady <==> ActionID(id, MakerClaimProxy) in journal.actions
    ensures journal.trades - {id} == old(journal.trades) - {id}
    ensures old(journal.trades)[id].relayMatchPending ==> after == history && journal.trades == old(journal.trades)
    ensures outcome != LegacyPhaseReached && (steady ==> outcome != LimitReached)
    ensures DormantStart(old(journal.trades)[id], old(journal.actions), id, dormant, view) && messages == [] ==>
              DormantPass(crypto, old(journal.trades)[id], journal.trades[id], outcome)
    ensures DormantStart(old(journal.trades)[id], old(journal.actions), id, dormant, view)
            && old(journal.trades)[id].phase != AsyncTakerFunding ==>
              outcome.Failed? && Stranded(old(journal.trades)[id], journal.trades[id], journal.actions, id)
    ensures outcome == Quiet && !old(journal.trades)[id].relayMatchPending ==>
              exists k :: |history| < k && CameToRest(crypto, origin, after, k)
    ensures outcome == Quiet && !old(journal.trades)[id].relayMatchPending ==>
              forall k :: 0 <= k < |messages| ==> Taken(messages[k], journal.trades[id])
  {
    hide Replay, Evidence, LiesDormant, IdleSwap, DormantPass, Reported, CameToRest, Taken;
    if journal.trades[id].relayMatchPending {
      return Quiet, history, looks;
    }
    var engine := new Engine(crypto, journal, id, tools, steady, dormant, view, origin, history, looks);
    outcome := engine.DriveAsyncSwap(messages);
    after, seen := engine.history, engine.looks;
  }

  /** A swap past the first phase, and passes that all begin with the wallets knowing nothing of its own
      funding and the windows closed. */
  ghost predicate StrandsFor(r: Swap, actions: map<string, Action>, id: string, dormant: Option<Dormant>, ticks: seq<Tick>) {
    && !r.relayMatchPending && IdleSwap(r, actions, id) && r.phase != AsyncTakerFunding
    && dormant == Some(Dormant(r.role, r.agreement.value))
    && forall i :: 0 <= i < |ticks| ==> LiesDormant(ticks[i].view, dormant.value)
  }

  /** One tick of the worker for this swap: what the wallets answer first and the messages that came. */
  datatype Tick = Tick(steady: bool, view: View, messages: seq<PeerMessage>)

  /** The worker's ticker: pass after pass. A swap stranded at the first of them stays so, and each of the
      passes fails, whatever the counterparty sends. */
  method DriveTicks(crypto: Crypto, journal: Journal, id: string, tools: Tools,
                    dormant: Option<Dormant>, ticks: seq<Tick>, ghost origin: Swap, ghost history: seq<Event>, ghost looks: seq<View>)
    returns (outcomes: seq<Outcome>, ghost after: seq<Event>, ghost seen: seq<View>)
    requires Reported(history, looks)
    requires Fresh(origin) && Accepted(crypto, origin, history) && journal.crypto == crypto
    requires forall i :: 0 <= i < |ticks| && ticks[i].steady ==> Coherent(ticks[i].view)
    requires id in journal.trades && id == journal.trades[id].id
    requires Replay(crypto, origin, history).value.rec == journal.trades[id]
    requires Replay(crypto, origin, history).value.proxyReady <==> ActionID(id, MakerClaimProxy) in journal.actions
    modifies journal`trades, journal`messages, journal`actions
    ensures history <= after && Accepted(crypto, origin, after) && Reported(after, seen) && |outcomes| == |ticks|
    ensures id in journal.trades && Replay(crypto, origin, after).value.rec == journal.trades[id]
    ensures
      var before := old(journal.trades)[id];
      StrandsFor(before, old(journal.actions), id, dormant, ticks) ==>
        && Stranded(before, journal.trades[id], journal.actions, id)
        && forall i :: 0 <= i < |outcomes| ==> outcomes[i].Failed?
  {
    hide Replay, LiesDormant, LocallyFunded, FundingUnsent, DormantPass, Coherent, Fresh, Reported;
    outcomes, after, seen := [], history, looks;
    ghost var before := journal.trades[id];
    ghost var strands := StrandsFor(before, journal.actions, id, dormant, ticks);
    for i := 0 to |ticks|
      invariant |outcomes| == i && history <= after && Accepted(crypto, origin, after) && Reported(after, seen)
      invariant id in journal.trades && id == journal.trades[id].id
      invariant Replay(crypto, origin, after).value.rec == journal.trades[id]
      invariant Replay(crypto, origin, after).value.proxyReady <==> ActionID(id, MakerClaimProxy) in journal.actions
      invariant strands ==> Stranded(before, journal.trades[id], journal.actions, id)
      invariant strands ==> forall k :: 0 <= k < |outcomes| ==> outcomes[k].Failed?
    {
      var tick := ticks[i];
      var outcome: Outcome;
      outcome, after, seen := DriveSwap(crypto, journal, id, tools, tick.steady, dormant, tick.view,
                                        tick.messages, origin, after, seen);
      outcomes := outcomes + [outcome];
    }
  }

  // ----- what was true of the chains when money moved

  /** Seen in the iteration of event i: at some event before it, with the chains as they were then. */
  lemma SeenBefore(h: seq<Event>, looks: seq<View>, i: nat, e: Event) returns (j: nat)
    requires Reported(h, looks) && i < |h| && InThisIteration(h[..i], e)
    ensures j < i && h[j] == e && TrueOf(e, looks[j]) && forall k :: j < k < i ==> h[k] != Iteration
  {
    hide TrueOf;
    j := PositionInIteration(h[..i], e);
    assert forall k :: j < k < i ==> h[k] == h[..i][k];
  }

  /** Whenever the maker's funding was handed to a wallet, the same iteration had met the chains at least 360 QDAY
      and 36 Bitcoin blocks before the refund heights of the agreement, and the taker's funding confirmed. */
  lemma FundedWhileOpen(c: Crypto, r: Swap, h: seq<Event>, looks: seq<View>, i: nat) returns (w: nat, t: nat)
    requires Accepted(c, r, h) && Reported(h, looks) && i < |h| && h[i] == SentMakerFunding
    ensures w < i && t < i && forall k :: w < k < i || t < k < i ==> h[k] != Iteration
    ensures Accepted(c, r, h[..i]) && Replay(c, r, h[..i]).value.rec.agreement.Some?
    ensures
      var a := Replay(c, r, h[..i]).value.rec.agreement.value;
      looks[w].qdayHeight + 360 <= a.qdayRefundHeight && looks[w].bitcoinHeight + 36 <= a.bitcoinRefundHeight
    ensures looks[t].taker.confirmed
  {
    hide Replay, Reported, InThisIteration;
    MakerFundingGuarded(c, r, h, i);
    var a := Replay(c, r, h[..i]).value.rec.agreement.value;
    var q: nat, b: int :| InThisIteration(h[..i], SawWindow(q, b)) && q + 360 <= a.qdayRefundHeight && b + 36 <= a.bitcoinRefundHeight;
    w := SeenBefore(h, looks, i, SawWindow(q, b));
    t := SeenBefore(h, looks, i, SawFunding(Taker, true));
  }

  /** Whenever the taker revealed its secret, the same iteration had met both fundings confirmed. */
  lemma RevealedOverConfirmed(c: Crypto, r: Swap, h: seq<Event>, looks: seq<View>, i: nat) returns (t: nat, m: nat)
    requires Accepted(c, r, h) && Reported(h, looks) && i < |h| && h[i] == SentClaim(Taker)
    ensures t < i && m < i && forall k :: t < k < i || m < k < i ==> h[k] != Iteration
    ensures looks[t].taker.confirmed && looks[m].maker.confirmed
  {
    hide Replay, Reported, InThisIteration;
    OwnClaimGuarded(c, r, h, i);
    t := SeenBefore(h, looks, i, SawFunding(Taker, true));
    m := SeenBefore(h, looks, i, SawFunding(Maker, true));
  }

  /** Whenever a participant turned to the refund path with its own funding out, the same iteration had met the
      chain of that leg at or past the refund height of the agreement. */
  lemma RefundedWhenReached(c: Crypto, r: Swap, h: seq<Event>, looks: seq<View>, i: nat) returns (w: nat)
    requires Fresh(r) && Accepted(c, r, h) && Reported(h, looks) && i < |h| && Accepted(c, r, h[..i])
    requires Enters(c, r, h, i, WaitingForRefund) && LocallyFunded(Replay(c, r, h[..i]).value.rec)
    ensures w < i && forall k :: w < k < i ==> h[k] != Iteration
    ensures
      var rec := Replay(c, r, h[..i]).value.rec;
      && rec.agreement.Some? && FundingOf(rec, rec.role).Some?
      && var asset, a, v := FundingOf(rec, rec.role).value.asset, rec.agreement.value, looks[w];
         && (asset == "QDAY" ==> v.qdayHeight >= a.qdayRefundHeight)
         && (asset != "QDAY" && a.bitcoinRefundHeight < 0x8000_0000 ==> v.bitcoinHeight >= a.bitcoinRefundHeight)
  {
    hide Replay, Reported, InThisIteration, Enters, LocallyFunded;
    RefundEntryGuarded(c, r, h, i);
    var rec := Replay(c, r, h[..i]).value.rec;
    var asset := FundingOf(rec, rec.role).value.asset;
    var height :| InThisIteration(h[..i], SawHeight(asset, height)) && Reached(rec.agreement.value, asset, height);
    w := SeenBefore(h, looks, i, SawHeight(asset, height));
  }

  /** Such swaps exist: every released version 2 maker record has a permitted run into the maker funding
      phase without any funding of its own, and the windows may be closed by then. */
  lemma StrandedReachable(c: Crypto, r: Swap, a: Agreement, hash: string, taker: Notice, id: string)
    returns (h: seq<Event>, view: View)
    requires Fresh(r) && r.role.Maker? && !r.relayMatchPending && a.secretHash != ""
    ensures Accepted(c, r, h) && Replay(c, r, h).value.rec.phase == AsyncMakerFunding
    ensures DormantStart(Replay(c, r, h).value.rec, map[], id, Some(Dormant(Maker, a)), view) && Coherent(view)
    ensures view.taker.confirmed
  {
    hide Replay;
    h := BeginPermitted(c, r, a, hash, taker);
    h := FundingPermitted(c, r, h, State(Begun(r, a, hash, taker), false, NOTHING_SEEN));
    var funded, absent := Leg(true, true, Unspent, false), Leg(false, false, Unspent, false);
    view := View(funded, absent, a.qdayRefundHeight, a.bitcoinRefundHeight);
  }
}
