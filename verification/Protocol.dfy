/** The rules of the version 2 protocol as seen by one participant: which journal writes and which
    broadcasts are allowed after which observations. A history is a sequence of events; Replay
    accepts it when every event obeys the rules in the state the earlier events left. Histories are
    what survives crashes: a pass of the engine that stops anywhere simply ends its history there.
    Engine.dfy proves that the engine only ever produces accepted histories. */
module Protocol {
  import opened Basics
  import opened Records
  import opened Terms
  import opened SwapState

  datatype ClaimView = ClaimView(found: bool, confirmed: bool)

  /** What the current loop iteration has learned or done; forgotten when the next one starts. */
  datatype Seen = Seen(
    taker: Option<bool>, maker: Option<bool>,
    takerClaim: Option<ClaimView>, makerClaim: Option<ClaimView>,
    pool: Option<bool>, recovered: Option<bool>,
    takerRefund: Option<bool>, makerRefund: Option<bool>,
    window: Option<(nat, nat)>, due: Option<bool>,
    takerFundingSent: bool, templateDelivered: bool, ownClaimSent: bool)

  const NOTHING_SEEN := Seen(None, None, None, None, None, None, None, None, None, None, false, false, false)

  datatype State = State(rec: Swap, proxyReady: bool, seen: Seen)

  datatype Event =
    | Iteration
    | SawFunding(party: Party, confirmed: bool)
    | SawPool(observed: bool)
    | SawRecovery(found: bool)
    | SawClaim(claimant: Party, view: ClaimView)
    | SawRefund(funder: Party, refunded: bool)
    | SawWindow(qdayHeight: nat, bitcoinHeight: int)
    | SawHeight(asset: string, height: int)
    | Wrote(rec: Swap)
    | ProxyJournaled
    | TemplateDelivered
    | NoticeDelivered
    | SentTakerFunding
    | SentMakerFunding
    | SentClaim(claimer: Party)
    | SentProxyClaim
    | SentRefund
    | RelayedPeerFunding

  const MINIMUM_QDAY_WINDOW: nat := 360
  const MINIMUM_BITCOIN_WINDOW: nat := 36

  predicate Open(window: (nat, nat)) {
    window.0 >= MINIMUM_QDAY_WINDOW && window.1 >= MINIMUM_BITCOIN_WINDOW
  }

  /** The blocks left before either refund height. */
  function Remaining(a: Agreement, qdayHeight: nat, bitcoinHeight: int): (nat, nat) {
    (if qdayHeight < a.qdayRefundHeight then a.qdayRefundHeight - qdayHeight else 0,
     if bitcoinHeight < a.bitcoinRefundHeight then a.bitcoinRefundHeight - bitcoinHeight else 0)
  }

  /** In heights: 360 blocks before the refund on QDAY and 36 on Bitcoin. */
  lemma OpenInHeights(a: Agreement, qdayHeight: nat, bitcoinHeight: int)
    ensures Open(Remaining(a, qdayHeight, bitcoinHeight)) <==>
            qdayHeight + 360 <= a.qdayRefundHeight && bitcoinHeight + 36 <= a.bitcoinRefundHeight
  {
  }

  function ToInt32(h: uint32): int {
    if h < 0x8000_0000 then h else h - TWO_TO_32
  }

  predicate IsDue(a: Agreement, asset: string, height: int) {
    if asset == "QDAY" then height >= a.qdayRefundHeight else height >= ToInt32(a.bitcoinRefundHeight)
  }

  /** Whether the participant's own funded leg has reached its refund height. */
  predicate OwnLegDue(r: Swap, height: int)
    requires r.agreement.Some? && FundingOf(r, r.role).Some?
  {
    IsDue(r.agreement.value, FundingOf(r, r.role).value.asset, height)
  }

  // ----- phases

  predicate AsyncPhase(p: Phase) {
    p in {Matched, AsyncTakerFunding, AsyncTakerFunded, AsyncMakerFunding, AsyncMakerFunded, AsyncTakerClaiming,
          AsyncTakerClaimed, AsyncMakerClaiming, Complete, WaitingForRefund, Refunding, Refunded, Expired}
  }

  predicate Running(p: Phase) {
    p in {AsyncTakerFunding, AsyncTakerFunded, AsyncMakerFunding, AsyncMakerFunded, AsyncTakerClaiming,
          AsyncTakerClaimed, AsyncMakerClaiming}
  }

  /** terminalSwapPhase */
  predicate Terminal(p: Phase) {
    p in {Complete, Refunded, Expired}
  }

  predicate InRefund(p: Phase) {
    p in {WaitingForRefund, Refunding, Refunded}
  }

  predicate FundedOrLater(p: Phase) {
    p in {AsyncTakerFunded, AsyncMakerFunding, AsyncMakerFunded, AsyncTakerClaiming, AsyncTakerClaimed,
          AsyncMakerClaiming, Complete}
  }

  predicate MakerFundedOrLater(p: Phase) {
    p in {AsyncMakerFunded, AsyncTakerClaiming, AsyncTakerClaimed, AsyncMakerClaiming, Complete}
  }

  predicate ClaimingOrLater(p: Phase) {
    p in {AsyncTakerClaiming, AsyncTakerClaimed, AsyncMakerClaiming, Complete}
  }

  predicate ClaimedOrLater(p: Phase) {
    p in {AsyncTakerClaimed, AsyncMakerClaiming, Complete}
  }

  // ----- the rules

  /** Whether this participant's own leg counts as funded. The taker's notice exists from the start,
      so for the taker only the submitted marker counts. */
  predicate LocallyFunded(r: Swap) {
    FundingOf(r, r.role).Some? && (r.role.Taker? ==> r.takerFundingSubmitted)
  }

  predicate Found(v: Option<ClaimView>) {
    v.Some? && v.value.found
  }

  predicate Settled(v: Option<ClaimView>) {
    v.Some? && v.value.found && v.value.confirmed
  }

  predicate Absent(v: Option<ClaimView>) {
    v.Some? && !v.value.found
  }

  predicate Unsettled(v: Option<ClaimView>) {
    v.Some? && !(v.value.found && v.value.confirmed)
  }

  function ClaimSeen(s: Seen, p: Party): Option<ClaimView> {
    if p.Maker? then s.makerClaim else s.takerClaim
  }

  function RefundSeen(s: Seen, p: Party): Option<bool> {
    if p.Maker? then s.makerRefund else s.takerRefund
  }

  /** The leg whose refund ends the swap: the local one when it was funded, else the counterparty's. */
  function RefundLeg(r: Swap): Party {
    if FundingOf(r, r.role).Some? then r.role else Opposite(r.role)
  }

  /** Entering the refund path: the own leg is due and unclaimed, or the own leg never moved and the
      counterparty has already taken its money back. */
  predicate MayWaitForRefund(s: State) {
    var counterparty := Opposite(s.rec.role);
    if LocallyFunded(s.rec) then s.seen.due == Some(true) && Absent(ClaimSeen(s.seen, counterparty))
    else
      && FundingOf(s.rec, counterparty).Some?
      && RefundSeen(s.seen, counterparty) == Some(true)
      && s.seen.window.Some? && Open(s.seen.window.value)
  }

  predicate MayExpire(s: State) {
    && !LocallyFunded(s.rec)
    && s.seen.window.Some? && !Open(s.seen.window.value)
    && (if s.rec.role.Taker? then s.seen.pool == Some(false) else s.seen.recovered == Some(false))
  }

  predicate MayAdvance(s: State, next: Phase) {
    var r, seen := s.rec, s.seen;
    match next
    case AsyncTakerFunding => r.phase == Matched && r.agreement.Some? && r.takerFunding.Some?
    case AsyncTakerFunded => r.phase == AsyncTakerFunding && r.takerFundingSubmitted && seen.taker == Some(true)
    case AsyncMakerFunding => r.phase == AsyncTakerFunded && seen.taker == Some(true)
    case AsyncMakerFunded =>
      && r.phase == AsyncMakerFunding && seen.taker == Some(true) && seen.maker == Some(true)
      && r.makerFunding.Some? && (r.role.Maker? ==> r.makerClaimTemplate.Some?)
    case AsyncTakerClaiming =>
      && r.phase == AsyncMakerFunded && seen.taker == Some(true) && seen.maker == Some(true)
      && (r.role.Taker? ==> r.makerClaimTemplate.Some?)
    case AsyncTakerClaimed =>
      && r.phase == AsyncTakerClaiming && seen.taker == Some(true) && seen.maker == Some(true)
      && Found(seen.takerClaim) && r.revealedSecret != ""
      && (r.role.Taker? ==> seen.ownClaimSent)
    case AsyncMakerClaiming => r.phase == AsyncTakerClaimed && Found(seen.takerClaim)
    case Complete => r.phase == AsyncMakerClaiming && Settled(seen.takerClaim) && Settled(seen.makerClaim)
    case WaitingForRefund => Running(r.phase) && MayWaitForRefund(s)
    case Refunding => r.phase == WaitingForRefund
    case Refunded => r.phase == Refunding && RefundSeen(seen, RefundLeg(r)) == Some(true)
    case Expired => r.phase == AsyncTakerFunding && MayExpire(s)
    case _ => false
  }

  predicate MayRewind(s: State, next: Phase) {
    var r, seen := s.rec, s.seen;
    match next
    case AsyncTakerFunding =>
      && r.phase in {AsyncTakerFunded, AsyncMakerFunding, AsyncMakerFunded, AsyncTakerClaiming, AsyncMakerClaiming}
      && seen.taker == Some(false)
    case AsyncMakerFunding =>
      && r.phase in {AsyncMakerFunded, AsyncTakerClaiming} && seen.taker == Some(true) && seen.maker == Some(false)
    case AsyncTakerClaiming =>
      || (r.phase in {AsyncTakerClaimed, AsyncMakerClaiming} && Absent(seen.takerClaim))
      || (r.phase == Complete && Unsettled(seen.takerClaim))
    case AsyncMakerClaiming => r.phase == Complete && Settled(seen.takerClaim) && Unsettled(seen.makerClaim)
    case Refunding => r.phase == Refunded && RefundSeen(seen, RefundLeg(r)) == Some(false)
    case _ => false
  }

  /** A write that keeps the phase may only add evidence, and each piece under its own condition. */
  predicate MaySet(c: Crypto, s: State, after: Swap) {
    var r := s.rec;
    && after.phase == r.phase && Extends(r, after)
    && (r.agreement.Some? ==> after.agreement == r.agreement && after.secretHash == r.secretHash)
    && (after.agreement != r.agreement ==>
          r.phase == Matched && after.agreement.Some? && after.secretHash == after.agreement.value.secretHash != "")
    && (r.takerFundingSubmitted ==> after.takerFundingSubmitted)
    && (after.takerFundingSubmitted && !r.takerFundingSubmitted ==>
          s.seen.takerFundingSent || s.seen.taker == Some(true) || s.seen.pool == Some(true))
    && (after.revealedSecret != r.revealedSecret ==> r.agreement.Some? && Opens(c, after.revealedSecret, r.secretHash))
    && (after.makerClaimTemplate.Some? && r.role.Taker? ==> s.proxyReady || r.makerClaimTemplate.Some?)
  }

  predicate MayWrite(c: Crypto, s: State, after: Swap) {
    || MaySet(c, s, after)
    || (MayAdvance(s, after.phase) && ValidAdvance(s.rec.phase, after.phase) &&
        after == s.rec.(phase := after.phase, lastError := ""))
    || (MayRewind(s, after.phase) && ValidRewind(s.rec.phase, after.phase) &&
        after == s.rec.(phase := after.phase, lastError := after.lastError,
                        takerFundingSubmitted := s.rec.takerFundingSubmitted && after.phase != AsyncTakerFunding))
  }

  /** The maker commits money only after its claim template is stored and accepted by the relay, in an
      iteration that saw the taker's funding confirmed and both refund windows open. */
  predicate MayFundMaker(s: State) {
    && s.rec.role.Maker? && s.rec.phase == AsyncMakerFunding
    && s.rec.makerClaimTemplate.Some? && s.seen.templateDelivered
    && s.seen.taker == Some(true)
    && s.seen.window.Some? && Open(s.seen.window.value)
  }

  /** The taker reveals its secret only in an iteration that saw both fundings confirmed, with the
      maker's claim template stored and its completed claim journaled. */
  predicate MayClaimAsTaker(s: State) {
    && s.rec.role.Taker? && s.rec.phase == AsyncTakerClaiming
    && s.seen.taker == Some(true) && s.seen.maker == Some(true)
    && s.rec.makerClaimTemplate.Some? && s.proxyReady
  }

  predicate MayClaimAsMaker(s: State) {
    && s.rec.role.Maker? && s.rec.phase == AsyncMakerClaiming
    && Found(s.seen.takerClaim) && Absent(s.seen.makerClaim) && s.seen.taker == Some(true)
    && s.rec.revealedSecret != ""
  }

  /** The completed maker claim: in the iteration of the own claim, or once that claim is visible. */
  predicate MayClaimByProxy(s: State) {
    && s.rec.role.Taker? && s.proxyReady
    && Absent(s.seen.makerClaim)
    && (|| (s.rec.phase == AsyncTakerClaiming && s.seen.ownClaimSent)
        || (s.rec.phase == AsyncMakerClaiming && Found(s.seen.takerClaim) && s.seen.taker == Some(true)))
  }

  predicate MaySendTakerFunding(s: State) {
    s.rec.phase == AsyncTakerFunding && s.seen.taker == Some(false)
  }

  predicate Allowed(c: Crypto, s: State, e: Event) {
    match e
    case Wrote(after) => MayWrite(c, s, after)
    case ProxyJournaled => s.rec.role.Taker?
    case TemplateDelivered => s.rec.makerClaimTemplate.Some?
    case SawWindow(_, _) => s.rec.agreement.Some?
    case SawHeight(asset, _) =>
      s.rec.agreement.Some? && FundingOf(s.rec, s.rec.role).Some? && asset == FundingOf(s.rec, s.rec.role).value.asset
    case SentTakerFunding => MaySendTakerFunding(s) && !s.rec.relayMatchPending
    case SentMakerFunding => MayFundMaker(s) && !s.rec.relayMatchPending
    case SentClaim(p) => (if p.Taker? then MayClaimAsTaker(s) else MayClaimAsMaker(s)) && !s.rec.relayMatchPending
    case SentProxyClaim => MayClaimByProxy(s) && !s.rec.relayMatchPending
    case SentRefund => s.rec.phase == Refunding && !s.rec.relayMatchPending
    case RelayedPeerFunding => !s.rec.relayMatchPending
    case _ => true
  }

  function WithFunding(seen: Seen, p: Party, confirmed: bool): Seen {
    if p.Taker? then seen.(taker := Some(confirmed)) else seen.(maker := Some(confirmed))
  }

  function WithClaim(seen: Seen, p: Party, v: ClaimView): Seen {
    if p.Taker? then seen.(takerClaim := Some(v)) else seen.(makerClaim := Some(v))
  }

  function WithRefund(seen: Seen, p: Party, refunded: bool): Seen {
    if p.Taker? then seen.(takerRefund := Some(refunded)) else seen.(makerRefund := Some(refunded))
  }

  function WithWindow(r: Swap, seen: Seen, qdayHeight: nat, bitcoinHeight: int): Seen {
    if r.agreement.Some? then seen.(window := Some(Remaining(r.agreement.value, qdayHeight, bitcoinHeight))) else seen
  }

  function WithHeight(r: Swap, seen: Seen, height: int): Seen {
    if r.agreement.Some? && FundingOf(r, r.role).Some? then seen.(due := Some(OwnLegDue(r, height))) else seen
  }

  function WithSent(seen: Seen, e: Event): Seen {
    seen.(takerFundingSent := seen.takerFundingSent || e == SentTakerFunding,
          ownClaimSent := seen.ownClaimSent || e == SentClaim(Taker))
  }

  function NextSeen(s: State, e: Event): Seen {
    var seen := s.seen;
    match e
    case Iteration => NOTHING_SEEN
    case SawFunding(p, b) => WithFunding(seen, p, b)
    case SawPool(b) => seen.(pool := Some(b))
    case SawRecovery(b) => seen.(recovered := Some(b))
    case SawClaim(p, v) => WithClaim(seen, p, v)
    case SawRefund(p, b) => WithRefund(seen, p, b)
    case SawWindow(q, b) => WithWindow(s.rec, seen, q, b)
    case SawHeight(_, h) => WithHeight(s.rec, seen, h)
    case TemplateDelivered => seen.(templateDelivered := true)
    case SentTakerFunding => WithSent(seen, e)
    case SentClaim(_) => WithSent(seen, e)
    case _ => seen
  }

  function Next(s: State, e: Event): State {
    State(if e.Wrote? then e.rec else s.rec, s.proxyReady || e.ProxyJournaled?, NextSeen(s, e))
  }

  // Where a round of the loop leads, as a table over what the round saw: a phase to move to, or nothing
  // when the round has to wait.

  function FromTakerFunding(seen: Seen): Option<Phase> {
    if seen.taker == Some(true) then Some(AsyncTakerFunded) else None
  }

  function FromTakerFunded(seen: Seen): Option<Phase> {
    Some(if seen.taker == Some(true) then AsyncMakerFunding else AsyncTakerFunding)
  }

  function FromMakerFunding(noticed: bool, seen: Seen): Option<Phase> {
    if seen.taker == Some(false) then Some(AsyncTakerFunding)
    else if noticed && seen.maker == Some(true) then Some(AsyncMakerFunded)
    else None
  }

  /** Whether the taker still waits for the maker's claim template. */
  predicate AwaitsTemplate(r: Swap) {
    r.role.Taker? && r.makerClaimTemplate.None?
  }

  function FromMakerFunded(awaits: bool, seen: Seen): Option<Phase> {
    if seen.taker == Some(false) then Some(AsyncTakerFunding)
    else if seen.maker == Some(false) then Some(AsyncMakerFunding)
    else if awaits then None
    else Some(AsyncTakerClaiming)
  }

  function FromTakerClaiming(awaits: bool, seen: Seen): Option<Phase> {
    if seen.taker == Some(false) then Some(AsyncTakerFunding)
    else if seen.maker == Some(false) then Some(AsyncMakerFunding)
    else if awaits then None
    else if Found(seen.takerClaim) then Some(AsyncTakerClaimed)
    else None
  }

  function FromTakerClaimed(seen: Seen): Option<Phase> {
    Some(if Found(seen.takerClaim) then AsyncMakerClaiming else AsyncTakerClaiming)
  }

  function FromMakerClaiming(seen: Seen): Option<Phase> {
    if Absent(seen.takerClaim) then Some(AsyncTakerClaiming)
    else if Absent(seen.makerClaim) && seen.taker == Some(false) then Some(AsyncTakerFunding)
    else if Settled(seen.takerClaim) && Settled(seen.makerClaim) then Some(Complete)
    else None
  }

  function FromComplete(seen: Seen): Option<Phase> {
    if Unsettled(seen.takerClaim) then Some(AsyncTakerClaiming)
    else if Unsettled(seen.makerClaim) then Some(AsyncMakerClaiming)
    else None
  }

  function FromRefunding(refunded: Option<bool>): Option<Phase> {
    if refunded == Some(true) then Some(Refunded) else None
  }

  function FromRefunded(refunded: Option<bool>): Option<Phase> {
    if refunded == Some(false) then Some(Refunding) else None
  }

  function Decision(phase: Phase, s: State): Option<Phase> {
    match phase
    case AsyncTakerFunding => FromTakerFunding(s.seen)
    case AsyncTakerFunded => FromTakerFunded(s.seen)
    case AsyncMakerFunding => FromMakerFunding(s.rec.makerFunding.Some?, s.seen)
    case AsyncMakerFunded => FromMakerFunded(AwaitsTemplate(s.rec), s.seen)
    case AsyncTakerClaiming => FromTakerClaiming(AwaitsTemplate(s.rec), s.seen)
    case AsyncTakerClaimed => FromTakerClaimed(s.seen)
    case AsyncMakerClaiming => FromMakerClaiming(s.seen)
    case Complete => FromComplete(s.seen)
    case WaitingForRefund => Some(Refunding)
    case Refunding => FromRefunding(RefundSeen(s.seen, RefundLeg(s.rec)))
    case Refunded => FromRefunded(RefundSeen(s.seen, RefundLeg(s.rec)))
    case _ => None
  }

  lemma TakerClaimingDecides(awaits: bool, seen: Seen)
    requires seen.taker == Some(true) && seen.maker == Some(true)
    ensures FromTakerClaiming(awaits, seen) == if !awaits && Found(seen.takerClaim) then Some(AsyncTakerClaimed) else None
  {
  }

  lemma TakerClaimedDecides(seen: Seen)
    ensures FromTakerClaimed(seen) == Some(if Found(seen.takerClaim) then AsyncMakerClaiming else AsyncTakerClaiming)
  {
  }

  lemma MakerClaimingDecides(seen: Seen)
    ensures Absent(seen.takerClaim) ==> FromMakerClaiming(seen) == Some(AsyncTakerClaiming)
    ensures Found(seen.takerClaim) && Absent(seen.makerClaim) && seen.taker == Some(false) ==>
              FromMakerClaiming(seen) == Some(AsyncTakerFunding)
    ensures Settled(seen.takerClaim) && Settled(seen.makerClaim) ==> FromMakerClaiming(seen) == Some(Complete)
    ensures
      (Found(seen.takerClaim) && (Found(seen.makerClaim) || seen.taker == Some(true)) &&
       !(Settled(seen.takerClaim) && Settled(seen.makerClaim))) ==>
        FromMakerClaiming(seen) == None
  {
  }

  lemma CompleteDecides(seen: Seen)
    ensures Unsettled(seen.takerClaim) ==> FromComplete(seen) == Some(AsyncTakerClaiming)
    ensures Settled(seen.takerClaim) && Unsettled(seen.makerClaim) ==> FromComplete(seen) == Some(AsyncMakerClaiming)
    ensures Settled(seen.takerClaim) && Settled(seen.makerClaim) ==> FromComplete(seen) == None
  {
  }

  /** Why a round does not turn to the refund path: the own leg is claimed or not due yet, or nothing of
      one's own is out, the windows are open and the counterparty has not refunded. */
  predicate StaysInSwap(s: State) {
    var peer := Opposite(s.rec.role);
    if LocallyFunded(s.rec) then Found(ClaimSeen(s.seen, peer)) || s.seen.due == Some(false)
    else
      && s.seen.window.Some? && Open(s.seen.window.value)
      && (FundingOf(s.rec, peer).None? || RefundSeen(s.seen, peer) == Some(false))
  }

  lemma RefundNoted(seen: Seen, p: Party, refunded: bool)
    ensures RefundSeen(WithRefund(seen, p, refunded), p) == Some(refunded)
    ensures WithRefund(seen, p, refunded).window == seen.window
  {
  }

  /** Without own funding and with open windows the counterparty's refund decides. */
  lemma PeerRefundDecides(s: State)
    requires !LocallyFunded(s.rec) && s.seen.window.Some? && Open(s.seen.window.value)
    ensures FundingOf(s.rec, Opposite(s.rec.role)).None? || RefundSeen(s.seen, Opposite(s.rec.role)) == Some(false) ==> StaysInSwap(s)
    ensures FundingOf(s.rec, Opposite(s.rec.role)).Some? && RefundSeen(s.seen, Opposite(s.rec.role)) == Some(true) ==>
              MayWaitForRefund(s)
  {
  }

  // Each edge of the phase graph and what it takes, one by one.

  lemma EntersTakerFunded(s: State)
    requires s.rec.phase == AsyncTakerFunding && s.rec.takerFundingSubmitted && s.seen.taker == Some(true)
    ensures ValidAdvance(AsyncTakerFunding, AsyncTakerFunded) && MayAdvance(s, AsyncTakerFunded)
  {
  }

  lemma EntersMakerFunding(s: State)
    requires s.rec.phase == AsyncTakerFunded && s.seen.taker == Some(true)
    ensures ValidAdvance(AsyncTakerFunded, AsyncMakerFunding) && MayAdvance(s, AsyncMakerFunding)
  {
  }

  lemma EntersMakerFunded(s: State)
    requires s.rec.phase == AsyncMakerFunding && s.seen.taker == Some(true) && s.seen.maker == Some(true)
    requires s.rec.makerFunding.Some? && (s.rec.role.Maker? ==> s.rec.makerClaimTemplate.Some?)
    ensures ValidAdvance(AsyncMakerFunding, AsyncMakerFunded) && MayAdvance(s, AsyncMakerFunded)
  {
  }

  lemma EntersTakerClaiming(s: State)
    requires s.rec.phase == AsyncMakerFunded && s.seen.taker == Some(true) && s.seen.maker == Some(true)
    requires !AwaitsTemplate(s.rec)
    ensures ValidAdvance(AsyncMakerFunded, AsyncTakerClaiming) && MayAdvance(s, AsyncTakerClaiming)
  {
  }

  lemma EntersTakerClaimed(s: State)
    requires s.rec.phase == AsyncTakerClaiming && s.seen.taker == Some(true) && s.seen.maker == Some(true)
    requires Found(s.seen.takerClaim) && s.rec.revealedSecret != "" && (s.rec.role.Taker? ==> s.seen.ownClaimSent)
    ensures ValidAdvance(AsyncTakerClaiming, AsyncTakerClaimed) && MayAdvance(s, AsyncTakerClaimed)
  {
  }

  lemma EntersMakerClaiming(s: State)
    requires s.rec.phase == AsyncTakerClaimed && Found(s.seen.takerClaim)
    ensures ValidAdvance(AsyncTakerClaimed, AsyncMakerClaiming) && MayAdvance(s, AsyncMakerClaiming)
  {
  }

  lemma EntersComplete(s: State)
    requires s.rec.phase == AsyncMakerClaiming && Settled(s.seen.takerClaim) && Settled(s.seen.makerClaim)
    ensures ValidAdvance(AsyncMakerClaiming, Complete) && MayAdvance(s, Complete)
  {
  }

  lemma EntersWaiting(s: State)
    requires Running(s.rec.phase) && MayWaitForRefund(s)
    ensures ValidAdvance(s.rec.phase, WaitingForRefund) && MayAdvance(s, WaitingForRefund)
  {
  }

  lemma EntersRefunded(s: State)
    requires s.rec.phase == Refunding && RefundSeen(s.seen, RefundLeg(s.rec)) == Some(true)
    ensures ValidAdvance(Refunding, Refunded) && MayAdvance(s, Refunded)
  {
  }

  lemma ReturnsToTakerFunding(s: State)
    requires s.rec.phase in {AsyncTakerFunded, AsyncMakerFunding, AsyncMakerFunded, AsyncTakerClaiming, AsyncMakerClaiming}
    requires s.seen.taker == Some(false)
    ensures ValidRewind(s.rec.phase, AsyncTakerFunding) && MayRewind(s, AsyncTakerFunding)
  {
  }

  lemma ReturnsToMakerFunding(s: State)
    requires s.rec.phase in {AsyncMakerFunded, AsyncTakerClaiming}
    requires s.seen.taker == Some(true) && s.seen.maker == Some(false)
    ensures ValidRewind(s.rec.phase, AsyncMakerFunding) && MayRewind(s, AsyncMakerFunding)
  {
  }

  lemma ReturnsToTakerClaiming(s: State)
    requires || (s.rec.phase in {AsyncTakerClaimed, AsyncMakerClaiming} && Absent(s.seen.takerClaim))
             || (s.rec.phase == Complete && Unsettled(s.seen.takerClaim))
    ensures ValidRewind(s.rec.phase, AsyncTakerClaiming) && MayRewind(s, AsyncTakerClaiming)
  {
  }

  lemma ReturnsToMakerClaiming(s: State)
    requires s.rec.phase == Complete && Settled(s.seen.takerClaim) && Unsettled(s.seen.makerClaim)
    ensures ValidRewind(Complete, AsyncMakerClaiming) && MayRewind(s, AsyncMakerClaiming)
  {
  }

  lemma ReturnsToRefunding(s: State)
    requires s.rec.phase == Refunded && RefundSeen(s.seen, RefundLeg(s.rec)) == Some(false)
    ensures ValidRewind(Refunded, Refunding) && MayRewind(s, Refunding)
  {
  }

  // ----- histories

  /** A freshly created version 2 swap: Journal.Create. */
  predicate Fresh(r: Swap) {
    r.version == ASYNC_VERSION && r == NewSwap(r.role, r.order, r.acceptance, r.matched).(relayMatchPending := r.relayMatchPending)
  }

  /** The state after a history, or nothing when some event broke a rule. */
  function Replay(c: Crypto, r: Swap, h: seq<Event>): Option<State> {
    if |h| == 0 then Some(State(r, false, NOTHING_SEEN))
    else
      match Replay(c, r, h[..|h| - 1])
      case None => None
      case Some(s) => if Allowed(c, s, h[|h| - 1]) then Some(Next(s, h[|h| - 1])) else None
  }

  ghost predicate Accepted(c: Crypto, r: Swap, h: seq<Event>) {
    Replay(c, r, h).Some?
  }

  lemma ReplaySnoc(c: Crypto, r: Swap, h: seq<Event>, e: Event)
    requires Accepted(c, r, h) && Allowed(c, Replay(c, r, h).value, e)
    ensures Replay(c, r, h + [e]) == Some(Next(Replay(c, r, h).value, e))
  {
    assert (h + [e])[..|h|] == h;
  }

  /** Stopping anywhere leaves an accepted history: this is what makes a crash harmless. */
  lemma {:induction false} PrefixAccepted(c: Crypto, r: Swap, h: seq<Event>, i: nat)
    requires Accepted(c, r, h) && i <= |h|
    ensures Accepted(c, r, h[..i])
    decreases |h|
  {
    if i == |h| {
      assert h[..i] == h;
    } else {
      PrefixAccepted(c, r, h[..|h| - 1], i);
      assert h[..|h| - 1][..i] == h[..i];
    }
  }

  /** The state an event met. */
  lemma EventAllowed(c: Crypto, r: Swap, h: seq<Event>, i: nat)
    requires Accepted(c, r, h) && i < |h|
    ensures Accepted(c, r, h[..i]) && Allowed(c, Replay(c, r, h[..i]).value, h[i])
    ensures Replay(c, r, h[..i + 1]) == Some(Next(Replay(c, r, h[..i]).value, h[i]))
  {
    PrefixAccepted(c, r, h, i + 1);
    assert h[..i + 1][..i] == h[..i];
  }

  // ----- what every reachable journal record proves

  predicate Evidence(c: Crypto, s: State) {
    var r := s.rec;
    && AsyncPhase(r.phase) && r.version == ASYNC_VERSION
    && (r.phase != Matched ==> r.agreement.Some? && r.takerFunding.Some?)
    && (r.agreement.Some? ==> r.secretHash == r.agreement.value.secretHash != "")
    && (FundedOrLater(r.phase) ==> r.takerFundingSubmitted)
    && (MakerFundedOrLater(r.phase) ==> r.makerFunding.Some? && (r.role.Maker? ==> r.makerClaimTemplate.Some?))
    && (r.role.Taker? && r.makerClaimTemplate.Some? ==> s.proxyReady)
    && (r.role.Taker? && ClaimingOrLater(r.phase) ==> r.makerClaimTemplate.Some?)
    && (ClaimedOrLater(r.phase) ==> r.revealedSecret != "")
    && (r.revealedSecret != "" ==> r.agreement.Some? && Opens(c, r.revealedSecret, r.secretHash))
  }

  lemma StartedHasAgreement(c: Crypto, s: State)
    requires Evidence(c, s) && s.rec.phase != Matched
    ensures s.rec.agreement.Some? && s.rec.takerFunding.Some?
  {
  }

  lemma HashKnown(c: Crypto, s: State)
    requires Evidence(c, s) && s.rec.phase != Matched
    ensures s.rec.secretHash != ""
  {
  }

  /** What the engine relies on, phase by phase. */
  lemma PhaseEvidence(c: Crypto, s: State)
    requires Evidence(c, s)
    ensures AsyncPhase(s.rec.phase) && s.rec.version == ASYNC_VERSION
    ensures s.rec.phase != Matched ==> s.rec.agreement.Some? && s.rec.takerFunding.Some?
    ensures FundedOrLater(s.rec.phase) ==> s.rec.takerFundingSubmitted
    ensures MakerFundedOrLater(s.rec.phase) ==> s.rec.makerFunding.Some?
    ensures s.rec.role.Taker? && s.rec.makerClaimTemplate.Some? ==> s.proxyReady
    ensures ClaimedOrLater(s.rec.phase) ==> s.rec.revealedSecret != ""
  {
    hide Opens;
  }

  lemma SettersKeepEvidence(c: Crypto, s: State, after: Swap)
    requires Evidence(c, s) && MaySet(c, s, after)
    ensures Evidence(c, s.(rec := after))
  {
  }

  lemma MovesKeepEvidence(c: Crypto, s: State, after: Swap)
    requires Evidence(c, s) && MayWrite(c, s, after) && !MaySet(c, s, after)
    ensures Evidence(c, s.(rec := after))
  {
    hide MaySet, Opens, MayWaitForRefund, MayExpire;
    if MayAdvance(s, after.phase) && after == s.rec.(phase := after.phase, lastError := "") {
      AdvancesKeepEvidence(c, s, after);
    }
  }

  lemma AdvancesKeepEvidence(c: Crypto, s: State, after: Swap)
    requires Evidence(c, s) && MayAdvance(s, after.phase) && after == s.rec.(phase := after.phase, lastError := "")
    ensures Evidence(c, s.(rec := after))
  {
    hide Opens, MayWaitForRefund, MayExpire;
  }

  lemma StepKeepsEvidence(c: Crypto, s: State, e: Event)
    requires Evidence(c, s) && Allowed(c, s, e)
    ensures Evidence(c, Next(s, e))
  {
    if e.Wrote? {
      if MaySet(c, s, e.rec) {
        SettersKeepEvidence(c, s, e.rec);
      } else {
        MovesKeepEvidence(c, s, e.rec);
      }
    }
  }

  /** In every run, after every event, the record carries the evidence its phase claims. */
  lemma {:induction false} EvidenceAlways(c: Crypto, r: Swap, h: seq<Event>)
    requires Fresh(r) && Accepted(c, r, h)
    ensures Evidence(c, Replay(c, r, h).value)
  {
    if |h| > 0 {
      EvidenceAlways(c, r, h[..|h| - 1]);
      StepKeepsEvidence(c, Replay(c, r, h[..|h| - 1]).value, h[|h| - 1]);
    }
  }

  predicate ReachesChain(e: Event) {
    e.SentTakerFunding? || e.SentMakerFunding? || e.SentClaim? || e.SentProxyClaim? || e.SentRefund? || e.RelayedPeerFunding?
  }

  lemma SendingOnlyMarks(s: State, e: Event)
    requires ReachesChain(e)
    ensures Next(s, e) == s.(seen := WithSent(s.seen, e))
  {
  }

  /** A provisional match has sent nothing to either chain, so the maker may still discard it. */
  lemma {:induction false} ProvisionalMatchSentNothing(c: Crypto, r: Swap, h: seq<Event>)
    requires Accepted(c, r, h) && Replay(c, r, h).value.rec.relayMatchPending
    ensures forall i :: 0 <= i < |h| ==> !ReachesChain(h[i])
  {
    if |h| > 0 {
      var front := h[..|h| - 1];
      PendingOnlyFalls(c, Replay(c, r, front).value, h[|h| - 1]);
      ProvisionalMatchSentNothing(c, r, front);
    }
  }

  lemma PendingOnlyFalls(c: Crypto, s: State, e: Event)
    requires Allowed(c, s, e) && Next(s, e).rec.relayMatchPending
    ensures s.rec.relayMatchPending && !ReachesChain(e)
  {
  }

  lemma ReleasedStays(c: Crypto, s: State, e: Event)
    requires Allowed(c, s, e) && !s.rec.relayMatchPending
    ensures !Next(s, e).rec.relayMatchPending
  {
    if Next(s, e).rec.relayMatchPending {
      PendingOnlyFalls(c, s, e);
    }
  }

  /** What the journal's phase graph alone keeps, whatever its caller asks for: expired has no way out, the refund
      phases none to a claim, and from a version 2 phase that is not complete none leads to the legacy engine. */
  lemma GraphTraps(from: Phase, to: Phase)
    requires ValidAdvance(from, to) || ValidRewind(from, to)
    ensures from != Expired && (InRefund(from) ==> InRefund(to))
    ensures from in {Complete, Refunded} ==> ValidRewind(from, to) && !ValidAdvance(from, to)
    ensures Running(from) ==> AsyncPhase(to) && to != Matched
  {
  }

  /** Version 2 records never enter a phase of the legacy protocol. */
  lemma {:induction false} LegacyPhasesUnreachable(c: Crypto, r: Swap, h: seq<Event>)
    requires Fresh(r) && Accepted(c, r, h)
    ensures AsyncPhase(Replay(c, r, h).value.rec.phase)
  {
    EvidenceAlways(c, r, h);
  }

  /** reservedFunds tests the marker and the phase; on every reachable record still counted there the
      phase test adds nothing. */
  lemma {:induction false} ReservationPhaseTestRedundant(c: Crypto, r: Swap, h: seq<Event>)
    requires Fresh(r) && Accepted(c, r, h)
    ensures
      var rec := Replay(c, r, h).value.rec;
      !Terminal(rec.phase) && rec.phase != WaitingForRefund && rec.phase != Refunding ==>
        (!rec.takerFundingSubmitted <==>
         !rec.takerFundingSubmitted && (rec.phase == Matched || rec.phase == AsyncTakerFunding))
  {
    EvidenceAlways(c, r, h);
  }

  /** Along a history the record only grows: what it once held as evidence it holds ever after. */
  lemma {:induction false} RecordExtends(c: Crypto, r: Swap, h: seq<Event>, i: nat)
    requires Accepted(c, r, h) && i <= |h| && Accepted(c, r, h[..i])
    ensures Extends(Replay(c, r, h[..i]).value.rec, Replay(c, r, h).value.rec)
    decreases |h|
  {
    if i == |h| {
      assert h[..i] == h;
      ExtendsReflexive(Replay(c, r, h).value.rec);
    } else {
      hide Allowed, Next, Extends;
      var front := h[..|h| - 1];
      assert front[..i] == h[..i];
      RecordExtends(c, r, front, i);
      EventExtends(c, Replay(c, r, front).value, h[|h| - 1]);
      ExtendsTransitive(Replay(c, r, h[..i]).value.rec, Replay(c, r, front).value.rec, Replay(c, r, h).value.rec);
    }
  }

  lemma MoveExtends(r: Swap, phase: Phase, error: string, submitted: bool)
    ensures Extends(r, r.(phase := phase, lastError := error, takerFundingSubmitted := submitted))
  {
  }

  lemma EventExtends(c: Crypto, s: State, e: Event)
    requires Allowed(c, s, e)
    ensures Extends(s.rec, Next(s, e).rec)
  {
    hide MayAdvance, MayRewind, ValidAdvance, ValidRewind, NextSeen, MayFundMaker, MayClaimAsTaker, MayClaimAsMaker, MayClaimByProxy,
      MayWaitForRefund, MayExpire, Extends, MaySet;
    ExtendsReflexive(s.rec);
    if e.Wrote? {
      MoveExtends(s.rec, e.rec.phase, e.rec.lastError, e.rec.takerFundingSubmitted);
      if MaySet(c, s, e.rec) {
        SetExtends(c, s, e.rec);
      }
    }
  }

  // ----- what "seen" means in terms of the history

  /** Event e happened since the last loop iteration began. */
  predicate InThisIteration(h: seq<Event>, e: Event) {
    |h| > 0 && (h[|h| - 1] == e || (h[|h| - 1] != Iteration && InThisIteration(h[..|h| - 1], e)))
  }

  /** Spelled out: it stands at some position, and no iteration begins after it. */
  lemma {:induction false} PositionInIteration(h: seq<Event>, e: Event) returns (j: nat)
    requires InThisIteration(h, e)
    ensures j < |h| && h[j] == e && forall k :: j < k < |h| ==> h[k] != Iteration
  {
    j := |h| - 1;
    if h[j] != e {
      j := PositionInIteration(h[..|h| - 1], e);
    }
  }

  lemma {:induction false} PositionSuffices(h: seq<Event>, e: Event, j: nat)
    requires j < |h| && h[j] == e && forall k :: j < k < |h| ==> h[k] != Iteration
    ensures InThisIteration(h, e)
  {
    if j < |h| - 1 {
      PositionSuffices(h[..|h| - 1], e, j);
    }
  }

  lemma AfterEvent(h: seq<Event>, e: Event, x: Event)
    requires x == e || (e != Iteration && InThisIteration(h, x))
    ensures InThisIteration(h + [e], x)
  {
    assert (h + [e])[..|h|] == h;
  }

  /** A value remembered from this iteration comes from an event of this iteration. */
  predicate From<T>(h: seq<Event>, seen: Option<T>, event: T -> Event) {
    seen.Some? ==> InThisIteration(h, event(seen.value))
  }

  lemma FromKept<T>(h: seq<Event>, e: Event, before: Option<T>, after: Option<T>, event: T -> Event)
    requires From(h, before, event)
    requires after == None || (after.Some? && e == event(after.value)) || (after == before && e != Iteration)
    ensures From(h + [e], after, event)
  {
    if after.Some? {
      AfterEvent(h, e, event(after.value));
    }
  }

  function TakerFundingEvent(b: bool): Event { SawFunding(Taker, b) }
  function MakerFundingEvent(b: bool): Event { SawFunding(Maker, b) }
  function TakerClaimEvent(v: ClaimView): Event { SawClaim(Taker, v) }
  function MakerClaimEvent(v: ClaimView): Event { SawClaim(Maker, v) }
  function TakerRefundEvent(b: bool): Event { SawRefund(Taker, b) }
  function MakerRefundEvent(b: bool): Event { SawRefund(Maker, b) }
  function PoolEvent(b: bool): Event { SawPool(b) }
  function RecoveryEvent(b: bool): Event { SawRecovery(b) }

  predicate FundingWitnessed(h: seq<Event>, s: Seen) {
    && From(h, s.taker, TakerFundingEvent) && From(h, s.maker, MakerFundingEvent)
    && (s.templateDelivered ==> InThisIteration(h, TemplateDelivered))
  }

  predicate ClaimsWitnessed(h: seq<Event>, s: Seen) {
    From(h, s.takerClaim, TakerClaimEvent) && From(h, s.makerClaim, MakerClaimEvent)
  }

  predicate RefundsWitnessed(h: seq<Event>, s: Seen) {
    From(h, s.takerRefund, TakerRefundEvent) && From(h, s.makerRefund, MakerRefundEvent)
  }

  predicate SearchesWitnessed(h: seq<Event>, s: Seen) {
    From(h, s.pool, PoolEvent) && From(h, s.recovered, RecoveryEvent)
  }

  ghost predicate DueWitnessed(h: seq<Event>, s: State) {
    s.seen.due.Some? ==>
      && s.rec.agreement.Some? && FundingOf(s.rec, s.rec.role).Some?
      && exists height ::
           && InThisIteration(h, SawHeight(FundingOf(s.rec, s.rec.role).value.asset, height))
           && s.seen.due.value == OwnLegDue(s.rec, height)
  }

  ghost predicate WindowWitnessed(h: seq<Event>, s: State) {
    s.seen.window.Some? ==>
      && s.rec.agreement.Some?
      && exists q: nat, b: int :: InThisIteration(h, SawWindow(q, b)) && s.seen.window.value == Remaining(s.rec.agreement.value, q, b)
  }

  lemma FundingWitnessedStep(h: seq<Event>, s: State, e: Event)
    requires FundingWitnessed(h, s.seen)
    ensures FundingWitnessed(h + [e], NextSeen(s, e))
  {
    hide InThisIteration, From;
    var after := NextSeen(s, e);
    FromKept(h, e, s.seen.taker, after.taker, TakerFundingEvent);
    FromKept(h, e, s.seen.maker, after.maker, MakerFundingEvent);
    if after.templateDelivered {
      AfterEvent(h, e, TemplateDelivered);
    }
  }

  lemma ClaimsWitnessedStep(h: seq<Event>, s: State, e: Event)
    requires ClaimsWitnessed(h, s.seen)
    ensures ClaimsWitnessed(h + [e], NextSeen(s, e))
  {
    hide InThisIteration, From;
    var after := NextSeen(s, e);
    FromKept(h, e, s.seen.takerClaim, after.takerClaim, TakerClaimEvent);
    FromKept(h, e, s.seen.makerClaim, after.makerClaim, MakerClaimEvent);
  }

  lemma RefundsWitnessedStep(h: seq<Event>, s: State, e: Event)
    requires RefundsWitnessed(h, s.seen)
    ensures RefundsWitnessed(h + [e], NextSeen(s, e))
  {
    hide InThisIteration, From;
    var after := NextSeen(s, e);
    FromKept(h, e, s.seen.takerRefund, after.takerRefund, TakerRefundEvent);
    FromKept(h, e, s.seen.makerRefund, after.makerRefund, MakerRefundEvent);
  }

  lemma SearchesWitnessedStep(h: seq<Event>, s: State, e: Event)
    requires SearchesWitnessed(h, s.seen)
    ensures SearchesWitnessed(h + [e], NextSeen(s, e))
  {
    hide InThisIteration, From;
    var after := NextSeen(s, e);
    FromKept(h, e, s.seen.pool, after.pool, PoolEvent);
    FromKept(h, e, s.seen.recovered, after.recovered, RecoveryEvent);
  }

  lemma WritesKeepLeg(c: Crypto, s: State, after: Swap)
    requires MayWrite(c, s, after) && s.rec.agreement.Some? && FundingOf(s.rec, s.rec.role).Some?
    ensures after.role == s.rec.role && after.agreement == s.rec.agreement
    ensures FundingOf(after, after.role) == FundingOf(s.rec, s.rec.role)
  {
  }

  lemma SameLegSameDue(r: Swap, s: Swap)
    requires r.agreement.Some? && FundingOf(r, r.role).Some?
    requires s.role == r.role && s.agreement == r.agreement && FundingOf(s, s.role) == FundingOf(r, r.role)
    ensures forall height :: OwnLegDue(s, height) == OwnLegDue(r, height)
  {
  }

  lemma DueWitnessedStep(c: Crypto, h: seq<Event>, s: State, e: Event)
    requires DueWitnessed(h, s) && Allowed(c, s, e)
    ensures DueWitnessed(h + [e], Next(s, e))
  {
    hide InThisIteration, MayWrite, IsDue, OwnLegDue, MayFundMaker, MayClaimAsTaker, MayClaimAsMaker, MayClaimByProxy;
    if e.Wrote? && s.rec.agreement.Some? && FundingOf(s.rec, s.rec.role).Some? {
      WritesKeepLeg(c, s, e.rec);
      SameLegSameDue(s.rec, e.rec);
    }
    if e.SawHeight? {
      AfterEvent(h, e, e);
      assert InThisIteration(h + [e], SawHeight(e.asset, e.height));
    } else if e != Iteration && s.seen.due.Some? {
      var asset := FundingOf(s.rec, s.rec.role).value.asset;
      var height :| InThisIteration(h, SawHeight(asset, height)) && s.seen.due.value == OwnLegDue(s.rec, height);
      AfterEvent(h, e, SawHeight(asset, height));
    }
  }

  lemma WritesKeepAgreement(c: Crypto, s: State, after: Swap)
    requires MayWrite(c, s, after) && s.rec.agreement.Some?
    ensures after.agreement == s.rec.agreement
  {
    hide Extends, Opens, MayAdvance, MayRewind;
  }

  lemma WindowWitnessedStep(c: Crypto, h: seq<Event>, s: State, e: Event)
    requires WindowWitnessed(h, s) && Allowed(c, s, e)
    ensures WindowWitnessed(h + [e], Next(s, e))
  {
    hide InThisIteration, MayWrite, Remaining, MayFundMaker, MayClaimAsTaker, MayClaimAsMaker, MayClaimByProxy;
    if e.Wrote? && s.rec.agreement.Some? {
      WritesKeepAgreement(c, s, e.rec);
    }
    if e.SawWindow? {
      AfterEvent(h, e, e);
      assert InThisIteration(h + [e], SawWindow(e.qdayHeight, e.bitcoinHeight));
    } else if e != Iteration && s.seen.window.Some? {
      var q, b :| InThisIteration(h, SawWindow(q, b)) && s.seen.window.value == Remaining(s.rec.agreement.value, q, b);
      AfterEvent(h, e, SawWindow(q, b));
    }
  }

  /** Everything remembered from the current iteration comes from an event of that iteration. */
  ghost predicate Witnessed(h: seq<Event>, s: State) {
    && FundingWitnessed(h, s.seen) && ClaimsWitnessed(h, s.seen) && RefundsWitnessed(h, s.seen)
    && SearchesWitnessed(h, s.seen) && DueWitnessed(h, s) && WindowWitnessed(h, s)
  }

  lemma WitnessedStep(c: Crypto, h: seq<Event>, s: State, e: Event)
    requires Witnessed(h, s) && Allowed(c, s, e)
    ensures Witnessed(h + [e], Next(s, e))
  {
    hide FundingWitnessed, ClaimsWitnessed, RefundsWitnessed, SearchesWitnessed, DueWitnessed, WindowWitnessed, Allowed, NextSeen;
    FundingWitnessedStep(h, s, e);
    ClaimsWitnessedStep(h, s, e);
    RefundsWitnessedStep(h, s, e);
    SearchesWitnessedStep(h, s, e);
    DueWitnessedStep(c, h, s, e);
    WindowWitnessedStep(c, h, s, e);
  }

  lemma {:induction false} SeenIsWitnessed(c: Crypto, r: Swap, h: seq<Event>)
    requires Accepted(c, r, h)
    ensures Witnessed(h, Replay(c, r, h).value)
  {
    if |h| > 0 {
      hide Witnessed, Allowed, Next;
      var front, e := h[..|h| - 1], h[|h| - 1];
      SeenIsWitnessed(c, r, front);
      assert front + [e] == h;
      WitnessedStep(c, front, Replay(c, r, front).value, e);
    }
  }

  // ----- the main theorems, for every accepted history

  predicate CarriesPreimage(e: Event) {
    e.SentClaim? || e.SentProxyClaim?
  }

  ghost predicate OwnClaimHappened(h: seq<Event>) {
    exists j :: 0 <= j < |h| && h[j] == SentClaim(Taker)
  }

  /** The taker counts the claim as made only after its own claim was sent. */
  predicate CountsAsClaimed(s: State) {
    ClaimedOrLater(s.rec.phase) || s.seen.ownClaimSent
  }

  lemma ClaimIsSentFirst(c: Crypto, s: State, e: Event)
    requires s.rec.role.Taker? && Allowed(c, s, e)
    ensures Next(s, e).rec.role.Taker?
    ensures CountsAsClaimed(Next(s, e)) ==> CountsAsClaimed(s) || e == SentClaim(Taker)
  {
    hide Opens, MessagesKept, MayWaitForRefund, MayExpire;
  }

  /** For the taker, a claimed phase is only ever reached through its own claim. */
  lemma {:induction false} ClaimedMeansClaimed(c: Crypto, r: Swap, h: seq<Event>)
    requires Fresh(r) && r.role.Taker? && Accepted(c, r, h)
    ensures Replay(c, r, h).value.rec.role.Taker?
    ensures CountsAsClaimed(Replay(c, r, h).value) ==> OwnClaimHappened(h)
  {
    if |h| > 0 {
      hide Allowed, CountsAsClaimed, Next;
      var front, e := h[..|h| - 1], h[|h| - 1];
      ClaimedMeansClaimed(c, r, front);
      ClaimIsSentFirst(c, Replay(c, r, front).value, e);
      if OwnClaimHappened(front) {
        var j :| 0 <= j < |front| && front[j] == SentClaim(Taker);
        assert h[j] == SentClaim(Taker);
      }
      if e == SentClaim(Taker) {
        assert h[|h| - 1] == SentClaim(Taker);
      }
    }
  }

  /** The first transaction carrying the preimage is the taker's own claim; a proxy claim on the
      maker's behalf only ever follows it. */
  lemma OwnClaimFirst(c: Crypto, r: Swap, h: seq<Event>, i: nat)
    requires Fresh(r) && r.role.Taker? && Accepted(c, r, h) && i < |h| && CarriesPreimage(h[i])
    ensures h[i] == SentClaim(Taker) || (h[i] == SentProxyClaim && OwnClaimHappened(h[..i]))
  {
    EventAllowed(c, r, h, i);
    ClaimedMeansClaimed(c, r, h[..i]);
  }

  /** Every own claim happens in an iteration that saw both fundings confirmed, with the maker's claim
      template stored and the completed maker claim journaled. */
  lemma OwnClaimGuarded(c: Crypto, r: Swap, h: seq<Event>, i: nat)
    requires Accepted(c, r, h) && i < |h| && h[i] == SentClaim(Taker)
    ensures InThisIteration(h[..i], SawFunding(Taker, true)) && InThisIteration(h[..i], SawFunding(Maker, true))
    ensures Accepted(c, r, h[..i]) && Replay(c, r, h[..i]).value.rec.makerClaimTemplate.Some?
    ensures Replay(c, r, h[..i]).value.proxyReady && ProxyJournaled in h[..i]
  {
    EventAllowed(c, r, h, i);
    SeenIsWitnessed(c, r, h[..i]);
    ReadyMeansJournaled(c, r, h[..i]);
  }

  lemma {:induction false} ReadyMeansJournaled(c: Crypto, r: Swap, h: seq<Event>)
    requires Accepted(c, r, h) && Replay(c, r, h).value.proxyReady
    ensures ProxyJournaled in h
  {
    if h[|h| - 1] != ProxyJournaled {
      ReadyMeansJournaled(c, r, h[..|h| - 1]);
    }
  }

  /** The maker hands its funding to a wallet only after the relay accepted its stored template, in an
      iteration that saw the taker's funding confirmed and both chains far enough from the agreement's refund
      heights: 360 blocks on QDAY and 36 on Bitcoin. */
  lemma MakerFundingGuarded(c: Crypto, r: Swap, h: seq<Event>, i: nat)
    requires Accepted(c, r, h) && i < |h| && h[i] == SentMakerFunding
    ensures InThisIteration(h[..i], TemplateDelivered) && InThisIteration(h[..i], SawFunding(Taker, true))
    ensures Accepted(c, r, h[..i]) && Replay(c, r, h[..i]).value.rec.makerClaimTemplate.Some?
    ensures
      var agreement := Replay(c, r, h[..i]).value.rec.agreement;
      && agreement.Some?
      && exists q: nat, b: int ::
           && InThisIteration(h[..i], SawWindow(q, b))
           && q + 360 <= agreement.value.qdayRefundHeight && b + 36 <= agreement.value.bitcoinRefundHeight
  {
    EventAllowed(c, r, h, i);
    SeenIsWitnessed(c, r, h[..i]);
    var s := Replay(c, r, h[..i]).value;
    var q, b :| InThisIteration(h[..i], SawWindow(q, b)) && s.seen.window.value == Remaining(s.rec.agreement.value, q, b);
    OpenInHeights(s.rec.agreement.value, q, b);
  }

  function PhaseAfter(c: Crypto, r: Swap, h: seq<Event>): Phase
    requires Accepted(c, r, h)
  {
    Replay(c, r, h).value.rec.phase
  }

  lemma StepStaysInRefund(c: Crypto, s: State, e: Event)
    requires InRefund(s.rec.phase) && Allowed(c, s, e)
    ensures InRefund(Next(s, e).rec.phase) && !CarriesPreimage(e)
  {
    hide Extends, Opens, MayWaitForRefund, MayExpire, NextSeen;
  }

  lemma StepStaysExpired(c: Crypto, s: State, e: Event)
    requires s.rec.phase == Expired && Allowed(c, s, e)
    ensures Next(s, e).rec.phase == Expired
    ensures !CarriesPreimage(e) && e != SentMakerFunding && e != SentTakerFunding
  {
    hide Extends, Opens, MayWaitForRefund, MayExpire, NextSeen;
  }

  /** Once on the refund path, always on it, and no claim is ever broadcast again. */
  lemma {:induction false} RefundIsATrap(c: Crypto, r: Swap, h: seq<Event>, i: nat)
    requires Accepted(c, r, h) && i <= |h|
    requires Accepted(c, r, h[..i]) && InRefund(PhaseAfter(c, r, h[..i]))
    ensures InRefund(PhaseAfter(c, r, h))
    ensures forall k :: i <= k < |h| ==> !CarriesPreimage(h[k])
    decreases |h|
  {
    if i == |h| {
      assert h[..i] == h;
    } else {
      hide Allowed, Next;
      var front := h[..|h| - 1];
      assert front[..i] == h[..i];
      RefundIsATrap(c, r, front, i);
      StepStaysInRefund(c, Replay(c, r, front).value, h[|h| - 1]);
    }
  }

  lemma {:induction false} ExpiredIsFinal(c: Crypto, r: Swap, h: seq<Event>, i: nat)
    requires Accepted(c, r, h) && i <= |h|
    requires Accepted(c, r, h[..i]) && PhaseAfter(c, r, h[..i]) == Expired
    ensures PhaseAfter(c, r, h) == Expired
    ensures forall k :: i <= k < |h| ==> !CarriesPreimage(h[k]) && h[k] != SentMakerFunding && h[k] != SentTakerFunding
    decreases |h|
  {
    if i == |h| {
      assert h[..i] == h;
    } else {
      hide Allowed, Next;
      var front := h[..|h| - 1];
      assert front[..i] == h[..i];
      ExpiredIsFinal(c, r, front, i);
      StepStaysExpired(c, Replay(c, r, front).value, h[|h| - 1]);
    }
  }

  /** Event i enters phase p. */
  predicate Enters(c: Crypto, r: Swap, h: seq<Event>, i: nat, p: Phase)
    requires Accepted(c, r, h) && i < |h| && Accepted(c, r, h[..i])
  {
    h[i].Wrote? && h[i].rec.phase == p != PhaseAfter(c, r, h[..i])
  }

  /** The two dead ends are entered by an advance only. */
  lemma EndsAreAdvances(c: Crypto, s: State, after: Swap)
    requires MayWrite(c, s, after) && after.phase in {WaitingForRefund, Expired} && after.phase != s.rec.phase
    ensures MayAdvance(s, after.phase)
  {
    hide Extends, Opens, MayWaitForRefund, MayExpire;
  }

  /** Whether a height is one at which a leg's refund is due: at or past the refund height of the leg's own
      chain, which the Bitcoin wallet's heights reach only below 2^31. */
  predicate Reached(a: Agreement, asset: string, height: int) {
    if asset == "QDAY" then height >= a.qdayRefundHeight
    else if a.bitcoinRefundHeight < 0x8000_0000 then height >= a.bitcoinRefundHeight
    else height >= a.bitcoinRefundHeight - 0x1_0000_0000
  }

  /** What a round knows of its own leg being due: exactly whether the height it saw of that leg's chain has
      reached the agreement's refund height. */
  lemma DueInHeights(c: Crypto, r: Swap, h: seq<Event>)
    requires Accepted(c, r, h) && Replay(c, r, h).value.seen.due.Some?
    ensures
      var s := Replay(c, r, h).value;
      && s.rec.agreement.Some? && FundingOf(s.rec, s.rec.role).Some?
      && var asset := FundingOf(s.rec, s.rec.role).value.asset;
         exists height ::
           && InThisIteration(h, SawHeight(asset, height))
           && (s.seen.due.value <==> Reached(s.rec.agreement.value, asset, height))
  {
    SeenIsWitnessed(c, r, h);
    var s := Replay(c, r, h).value;
    var asset := FundingOf(s.rec, s.rec.role).value.asset;
    var height :| InThisIteration(h, SawHeight(asset, height)) && s.seen.due.value == OwnLegDue(s.rec, height);
    assert Reached(s.rec.agreement.value, asset, height) == OwnLegDue(s.rec, height);
  }

  /** With own funding out, the refund path is entered only in an iteration that saw the chain of that leg at
      or past the agreement's refund height and the counterparty's claim looked for and not found; without,
      only when the counterparty has refunded. */
  lemma RefundEntryGuarded(c: Crypto, r: Swap, h: seq<Event>, i: nat)
    requires Fresh(r) && Accepted(c, r, h) && i < |h| && Accepted(c, r, h[..i]) && Enters(c, r, h, i, WaitingForRefund)
    ensures
      var s := Replay(c, r, h[..i]).value;
      if LocallyFunded(s.rec) then
        && s.rec.agreement.Some? && FundingOf(s.rec, s.rec.role).Some?
        && var asset := FundingOf(s.rec, s.rec.role).value.asset;
        && (exists height :: InThisIteration(h[..i], SawHeight(asset, height)) && Reached(s.rec.agreement.value, asset, height))
        && exists v :: InThisIteration(h[..i], SawClaim(Opposite(s.rec.role), v)) && !v.found
      else InThisIteration(h[..i], SawRefund(Opposite(s.rec.role), true))
  {
    hide MayWrite;
    EventAllowed(c, r, h, i);
    SeenIsWitnessed(c, r, h[..i]);
    var s := Replay(c, r, h[..i]).value;
    EndsAreAdvances(c, s, h[i].rec);
    if LocallyFunded(s.rec) {
      DueInHeights(c, r, h[..i]);
      var v := ClaimSeen(s.seen, Opposite(s.rec.role)).value;
      assert InThisIteration(h[..i], SawClaim(Opposite(s.rec.role), v));
    }
  }

  /** Expiry is entered only while nothing of this participant's is out: not recorded as submitted and
      looked for in vain in the same iteration, with a refund window too short to start. */
  lemma ExpiryEntryGuarded(c: Crypto, r: Swap, h: seq<Event>, i: nat)
    requires Fresh(r) && Accepted(c, r, h) && i < |h| && Accepted(c, r, h[..i]) && Enters(c, r, h, i, Expired)
    ensures
      var s := Replay(c, r, h[..i]).value;
      && !LocallyFunded(s.rec) && s.rec.phase == AsyncTakerFunding
      && (if s.rec.role.Taker? then InThisIteration(h[..i], SawPool(false)) && !s.rec.takerFundingSubmitted
          else InThisIteration(h[..i], SawRecovery(false)) && s.rec.makerFunding.None?)
      && s.rec.agreement.Some?
      && exists q: nat, b: int ::
           && InThisIteration(h[..i], SawWindow(q, b))
           && (q + 360 > s.rec.agreement.value.qdayRefundHeight || b + 36 > s.rec.agreement.value.bitcoinRefundHeight)
  {
    hide MayWrite;
    EventAllowed(c, r, h, i);
    SeenIsWitnessed(c, r, h[..i]);
    EvidenceAlways(c, r, h[..i]);
    var s := Replay(c, r, h[..i]).value;
    EndsAreAdvances(c, s, h[i].rec);
    var q, b :| InThisIteration(h[..i], SawWindow(q, b)) && s.seen.window.value == Remaining(s.rec.agreement.value, q, b);
    OpenInHeights(s.rec.agreement.value, q, b);
  }

  /** Where the source asks for expiry but the phase graph refuses: of the phases the engine drives,
      only the first has the edge. */
  lemma ExpiryEdge(p: Phase)
    requires Running(p)
    ensures ValidAdvance(p, Expired) <==> p == AsyncTakerFunding
  {
  }

  // ----- the rules leave room for a swap: a run up to the taker's own claim

  /** One more permitted event. */
  lemma Go(c: Crypto, r: Swap, h: seq<Event>, s: State, e: Event) returns (longer: seq<Event>)
    requires Replay(c, r, h) == Some(s) && Allowed(c, s, e)
    ensures longer == h + [e] && Replay(c, r, longer) == Some(Next(s, e))
  {
    hide Allowed, Next;
    ReplaySnoc(c, r, h, e);
    longer := h + [e];
  }

  /** The record a taker starts the first phase with. */
  function Begun(r: Swap, a: Agreement, hash: string, n: Notice): Swap {
    r.(secretHash := a.secretHash, agreementHash := hash, agreement := Some(a), takerFunding := Some(n),
       phase := AsyncTakerFunding, lastError := "")
  }

  lemma SetAllowed(c: Crypto, s: State, after: Swap)
    requires MaySet(c, s, after)
    ensures Allowed(c, s, Wrote(after))
  {
    hide MaySet;
  }

  lemma AdvanceAllowed(c: Crypto, s: State, next: Phase)
    requires MayAdvance(s, next) && ValidAdvance(s.rec.phase, next)
    ensures Allowed(c, s, Wrote(s.rec.(phase := next, lastError := "")))
  {
    hide MaySet, MayAdvance, ValidAdvance, MayRewind;
  }

  lemma FirstAgreement(c: Crypto, s: State, a: Agreement, hash: string)
    requires s.rec.phase == Matched && s.rec.secretHash == "" && s.rec.revealedSecret == "" && s.rec.agreement.None?
    requires s.rec.makerClaimTemplate.None? && !s.rec.takerFundingSubmitted && a.secretHash != ""
    ensures MaySet(c, s, s.rec.(secretHash := a.secretHash, agreementHash := hash, agreement := Some(a)))
  {
    hide Opens;
  }

  lemma FirstNotice(c: Crypto, s: State, n: Notice)
    requires s.rec.takerFunding.None? && s.rec.makerClaimTemplate.None?
    ensures MaySet(c, s, s.rec.(takerFunding := Some(n)))
  {
    hide Opens;
  }

  lemma FreshFacts(r: Swap)
    requires Fresh(r)
    ensures r.phase == Matched && r.secretHash == "" && r.revealedSecret == "" && r.agreement.None?
    ensures r.makerClaimTemplate.None? && !r.takerFundingSubmitted && r.takerFunding.None? && r.makerFunding.None?
  {
  }

  lemma BeginPermitted(c: Crypto, r: Swap, a: Agreement, hash: string, n: Notice) returns (h: seq<Event>)
    requires Fresh(r) && a.secretHash != ""
    ensures Replay(c, r, h) == Some(State(Begun(r, a, hash, n), false, NOTHING_SEEN))
  {
    hide MaySet, Allowed, Fresh, MayRewind, MayWaitForRefund, MayExpire;
    FreshFacts(r);
    var s := State(r, false, NOTHING_SEEN);
    var agreed := s.(rec := r.(secretHash := a.secretHash, agreementHash := hash, agreement := Some(a)));
    FirstAgreement(c, s, a, hash);
    SetAllowed(c, s, agreed.rec);
    h := Go(c, r, [], s, Wrote(agreed.rec));
    var noticed := agreed.(rec := agreed.rec.(takerFunding := Some(n)));
    FirstNotice(c, agreed, n);
    SetAllowed(c, agreed, noticed.rec);
    h := Go(c, r, h, agreed, Wrote(noticed.rec));
    AdvanceAllowed(c, noticed, AsyncTakerFunding);
    h := Go(c, r, h, noticed, Wrote(Begun(r, a, hash, n)));
  }

  /** From any state in the first phase that saw the taker funding confirmed to the maker funding phase. */
  lemma FundingPermitted(c: Crypto, r: Swap, h: seq<Event>, s: State) returns (longer: seq<Event>)
    requires Replay(c, r, h) == Some(s) && s.rec.phase == AsyncTakerFunding && s.seen == NOTHING_SEEN && s.rec.agreement.Some?
    ensures
      var seen := NOTHING_SEEN.(taker := Some(true));
      var rec := s.rec.(takerFundingSubmitted := true, phase := AsyncMakerFunding, lastError := "");
      Replay(c, r, longer) == Some(State(rec, s.proxyReady, seen))
  {
    hide MaySet, MayWaitForRefund, MayExpire, MayRewind, MayWrite;
    var saw := Next(s, SawFunding(Taker, true));
    longer := Go(c, r, h, s, SawFunding(Taker, true));
    var marked := saw.(rec := s.rec.(takerFundingSubmitted := true));
    FirstMark(c, saw);
    SetAllowed(c, saw, marked.rec);
    longer := Go(c, r, longer, saw, Wrote(marked.rec));
    var funded := marked.(rec := marked.rec.(phase := AsyncTakerFunded, lastError := ""));
    EntersTakerFunded(marked);
    AdvanceAllowed(c, marked, AsyncTakerFunded);
    longer := Go(c, r, longer, marked, Wrote(funded.rec));
    EntersMakerFunding(funded);
    AdvanceAllowed(c, funded, AsyncMakerFunding);
    longer := Go(c, r, longer, funded, Wrote(funded.rec.(phase := AsyncMakerFunding, lastError := "")));
  }

  lemma FirstMark(c: Crypto, s: State)
    requires s.seen.taker == Some(true) && s.rec.agreement.Some? && s.rec.phase != Matched
    ensures MaySet(c, s, s.rec.(takerFundingSubmitted := true))
  {
    hide Opens;
  }

  /** From there to the taker's own claim, once the maker's notice and template have arrived. */
  lemma ClaimingPermitted(c: Crypto, r: Swap, h: seq<Event>, s: State, n: Notice, t: Template) returns (longer: seq<Event>)
    requires Replay(c, r, h) == Some(s) && s.rec.phase == AsyncMakerFunding && s.seen == NOTHING_SEEN.(taker := Some(true))
    requires s.rec.agreement.Some? && s.rec.role.Taker? && s.rec.makerFunding.None? && s.rec.makerClaimTemplate.None?
    requires !s.rec.relayMatchPending
    ensures Accepted(c, r, longer) && |longer| > 0 && longer[|longer| - 1] == SentClaim(Taker)
  {
    hide Opens, MayWaitForRefund, MayExpire;
    var noticed := s.rec.(makerFunding := Some(n));
    longer := Go(c, r, h, s, Wrote(noticed));
    longer := Go(c, r, longer, s.(rec := noticed), ProxyJournaled);
    var ready := State(noticed, true, s.seen);
    var templated := noticed.(makerClaimTemplate := Some(t));
    longer := Go(c, r, longer, ready, Wrote(templated));
    longer := ClaimPermitted(c, r, longer, ready.(rec := templated));
  }

  lemma ClaimPermitted(c: Crypto, r: Swap, h: seq<Event>, s: State) returns (longer: seq<Event>)
    requires Replay(c, r, h) == Some(s) && s.rec.phase == AsyncMakerFunding && s.seen == NOTHING_SEEN.(taker := Some(true))
    requires s.rec.role.Taker? && s.rec.makerFunding.Some? && s.rec.makerClaimTemplate.Some? && s.proxyReady
    requires !s.rec.relayMatchPending
    ensures Accepted(c, r, longer) && |longer| > 0 && longer[|longer| - 1] == SentClaim(Taker)
  {
    hide Opens, MayWaitForRefund, MayExpire, MaySet;
    var saw := Next(s, SawFunding(Maker, true));
    longer := Go(c, r, h, s, SawFunding(Maker, true));
    var funded := s.rec.(phase := AsyncMakerFunded, lastError := "");
    longer := Go(c, r, longer, saw, Wrote(funded));
    var claiming := funded.(phase := AsyncTakerClaiming);
    longer := Go(c, r, longer, saw.(rec := funded), Wrote(claiming));
    longer := Go(c, r, longer, saw.(rec := claiming), SentClaim(Taker));
  }

  /** The rules are not empty: every released version 2 taker record has a permitted run that ends with
      its own claim. */
  lemma OwnClaimReachable(c: Crypto, r: Swap, a: Agreement, hash: string, taker: Notice, maker: Notice, t: Template)
    returns (h: seq<Event>)
    requires Fresh(r) && r.role.Taker? && !r.relayMatchPending && a.secretHash != ""
    ensures Accepted(c, r, h) && |h| > 0 && h[|h| - 1] == SentClaim(Taker)
  {
    hide Replay;
    h := BeginPermitted(c, r, a, hash, taker);
    h := FundingPermitted(c, r, h, State(Begun(r, a, hash, taker), false, NOTHING_SEEN));
    var rec := Begun(r, a, hash, taker).(takerFundingSubmitted := true, phase := AsyncMakerFunding, lastError := "");
    h := ClaimingPermitted(c, r, h, State(rec, false, NOTHING_SEEN.(taker := Some(true))), maker, t);
  }

  // ----- which single updates the rules permit

  lemma FundingSettable(c: Crypto, s: State, p: Party, n: Notice)
    requires Apply(c, s.rec, UFunding(p, n)).Ok? && Evidence(c, s)
    ensures MaySet(c, s, Apply(c, s.rec, UFunding(p, n)).value)
  {
    hide Opens;
    EvidenceExtends(c, s.rec, UFunding(p, n));
  }

  lemma SubmittedSettable(c: Crypto, s: State)
    requires Evidence(c, s) && (s.seen.takerFundingSent || s.seen.taker == Some(true) || s.seen.pool == Some(true))
    ensures Apply(c, s.rec, USubmitted(true)).Ok? && MaySet(c, s, Apply(c, s.rec, USubmitted(true)).value)
  {
    hide Opens;
    EvidenceExtends(c, s.rec, USubmitted(true));
  }

  lemma TemplateSettable(c: Crypto, s: State, t: Template)
    requires Apply(c, s.rec, UTemplate(t)).Ok? && Evidence(c, s) && (s.rec.role.Taker? ==> s.proxyReady)
    ensures MaySet(c, s, Apply(c, s.rec, UTemplate(t)).value)
  {
    hide Opens;
    EvidenceExtends(c, s.rec, UTemplate(t));
  }

  lemma SecretSettable(c: Crypto, s: State, secret: string)
    requires Apply(c, s.rec, USecret(secret)).Ok? && Evidence(c, s) && s.rec.agreement.Some?
    ensures MaySet(c, s, Apply(c, s.rec, USecret(secret)).value)
  {
    MarksExtend(c, s.rec, USecret(secret));
  }

  lemma ApproveSettable(c: Crypto, s: State)
    requires Apply(c, s.rec, UApprove).Ok? && Evidence(c, s)
    ensures MaySet(c, s, Apply(c, s.rec, UApprove).value)
  {
    hide Opens;
    MarksExtend(c, s.rec, UApprove);
  }

  lemma AgreementSettable(c: Crypto, s: State, hash: string, a: Agreement)
    requires Evidence(c, s) && s.rec.agreement.None?
    requires Apply(c, s.rec, UAgreement(a.secretHash, hash, a, Matched)).Ok?
    ensures MaySet(c, s, Apply(c, s.rec, UAgreement(a.secretHash, hash, a, Matched)).value)
  {
    hide Opens;
    MovesExtend(c, s.rec, UAgreement(a.secretHash, hash, a, Matched));
  }

  lemma MessagesSettable(c: Crypto, s: State, after: Swap)
    requires Evidence(c, s) && after == s.rec.(sentMessages := after.sentMessages)
    requires MessagesKept(s.rec.sentMessages, after.sentMessages)
    ensures MaySet(c, s, after)
  {
    hide Opens;
  }

  /** The record as it was read at the top of the iteration, while only evidence was added since. */
  predicate Current(record: Swap, s: State) {
    && record.phase == s.rec.phase && Extends(record, s.rec)
    && record.agreement == s.rec.agreement && record.secretHash == s.rec.secretHash
    && (record.takerFundingSubmitted ==> s.rec.takerFundingSubmitted)
    && (record.role.Taker? ==> s.rec.makerClaimTemplate == record.makerClaimTemplate)
  }

  lemma CurrentAfterSet(c: Crypto, record: Swap, s: State, after: Swap)
    requires Current(record, s) && MaySet(c, s, after) && s.rec.agreement.Some?
    requires s.rec.role.Taker? ==> after.makerClaimTemplate == s.rec.makerClaimTemplate
    ensures Current(record, s.(rec := after))
  {
    hide Opens;
    ExtendsTransitive(record, s.rec, after);
  }

  lemma SetKeepsIdentity(c: Crypto, s: State, after: Swap)
    requires MaySet(c, s, after)
    ensures after.id == s.rec.id && MayWrite(c, s, after)
  {
    hide Opens;
  }

  lemma SetExtends(c: Crypto, s: State, after: Swap)
    requires MaySet(c, s, after)
    ensures Extends(s.rec, after)
  {
    hide Extends;
  }

  lemma ExtendsReflexive(r: Swap)
    ensures Extends(r, r)
  {
  }

  lemma CurrentRefl(record: Swap, s: State)
    requires record == s.rec
    ensures Current(record, s)
  {
  }

  lemma FundingApplies(c: Crypto, r: Swap, p: Party, n: Notice)
    requires FundingOf(r, p).None?
    ensures Apply(c, r, UFunding(p, n)).Ok? && FundingOf(Apply(c, r, UFunding(p, n)).value, p) == Some(n)
    ensures Apply(c, r, UFunding(p, n)).value.role == r.role
  {
  }

  lemma FundingIsStored(c: Crypto, r: Swap, p: Party, n: Notice)
    requires Apply(c, r, UFunding(p, n)).Ok?
    ensures FundingOf(Apply(c, r, UFunding(p, n)).value, p) == Some(n) && Apply(c, r, UFunding(p, n)).value.role == r.role
    ensures Apply(c, r, UFunding(p, n)).value.phase == r.phase
  {
  }

  /** The counterparty's notice leaves the own side of the record alone. */
  lemma PeerFundingKeeps(c: Crypto, r: Swap, n: Notice)
    requires n.party == Opposite(r.role) && Apply(c, r, UFunding(n.party, n)).Ok?
    ensures
      var after := Apply(c, r, UFunding(n.party, n)).value;
      after.role == r.role && after.phase == r.phase && after.agreement == r.agreement && LocallyFunded(after) == LocallyFunded(r)
  {
  }

  lemma TemplateIsStored(c: Crypto, r: Swap, t: Template)
    requires Apply(c, r, UTemplate(t)).Ok?
    ensures Apply(c, r, UTemplate(t)).value == r.(makerClaimTemplate := Some(t))
  {
  }

  lemma SubmittedApplies(c: Crypto, r: Swap)
    requires r.version == ASYNC_VERSION
    ensures Apply(c, r, USubmitted(true)) == Ok(r.(takerFundingSubmitted := true))
  {
  }

  lemma SecretApplies(c: Crypto, r: Swap, secret: string)
    requires Apply(c, r, USecret(secret)).Ok?
    ensures Apply(c, r, USecret(secret)).value == r.(revealedSecret := secret) && secret != ""
  {
  }

  /** Moving from phase to phase leaves the own funding as it is. */
  lemma PhaseKeepsFunding(r: Swap, phase: Phase, error: string)
    ensures LocallyFunded(r.(phase := phase, lastError := error)) == LocallyFunded(r)
    ensures FundingOf(r.(phase := phase, lastError := error), r.role) == FundingOf(r, r.role)
  {
  }

  lemma CurrentSameRecord(record: Swap, a: State, b: State)
    requires Current(record, a) && b.rec == a.rec
    ensures Current(record, b)
  {
  }

  lemma CurrentFacts(record: Swap, s: State)
    requires Current(record, s)
    ensures s.rec.role == record.role && s.rec.phase == record.phase && s.rec.agreement == record.agreement
    ensures record.takerFunding.Some? ==> s.rec.takerFunding == record.takerFunding
    ensures record.makerFunding.Some? ==> s.rec.makerFunding == record.makerFunding
    ensures record.makerClaimTemplate.Some? ==> s.rec.makerClaimTemplate == record.makerClaimTemplate
    ensures s.rec.relayMatchPending ==> record.relayMatchPending
    ensures record.takerFundingSubmitted ==> s.rec.takerFundingSubmitted
    ensures record.role.Taker? ==> s.rec.makerClaimTemplate == record.makerClaimTemplate
  {
  }
}
