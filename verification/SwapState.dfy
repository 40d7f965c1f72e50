/** The durable swap journal: internal/swapstate/journal.go. Every record update is a pure function
    of the stored record; the Journal class commits it in one transaction. */
module SwapState {
  import opened Basics
  import opened Records
  import opened Terms
  import opened Trade

  datatype Phase =
    | Matched | TermsProposed | TermsAgreed | MakerFunding | MakerFunded | TakerFunding | TakerFunded
    | MakerClaiming | MakerClaimed | TakerClaiming
    | AsyncTakerFunding | AsyncTakerFunded | AsyncMakerFunding | AsyncMakerFunded
    | AsyncTakerClaiming | AsyncTakerClaimed | AsyncMakerClaiming
    | Complete | WaitingForRefund | Refunding | Refunded | Expired

  datatype Notice = Notice(party: Party, asset: string, transactionID: string, raw: string)

  datatype Template = Template(asset: string, fundingTransactionID: string, transactionID: string, raw: string)

  datatype Swap = Swap(
    version: uint16, id: string, role: Party, phase: Phase,
    order: SignedOrder, acceptance: SignedAcceptance, matched: SignedMatch,
    secretHash: string, agreementHash: string, agreement: Option<Agreement>,
    sentMessages: map<string, string>,
    makerFunding: Option<Notice>, takerFunding: Option<Notice>, takerFundingSubmitted: bool,
    relayMatchPending: bool, makerClaimTemplate: Option<Template>, approved: bool,
    revealedSecret: string, lastError: string)

  datatype ActionStatus = Prepared | Broadcast | Confirmed

  datatype Action = Action(
    id: string, swapID: string, kind: string, chain: string, raw: string, transactionID: string,
    status: ActionStatus, blockHeight: nat)

  /** Interrupted stands for every way a call can stop the caller without a verdict: a crash, a
      cancelled context, a lost response, an unavailable wallet or relay. */
  datatype Error =
    | Interrupted | NotFound | InvalidAdvance | PhaseChanged | Immutable | ActionConflict | InvalidValue
    | WrongStatus | Rejected | WindowClosed

  // ----- the phase graph

  predicate ValidAdvance(from: Phase, to: Phase) {
    match from
    case Matched => to in {TermsProposed, AsyncTakerFunding, WaitingForRefund}
    case TermsProposed => to in {TermsAgreed, WaitingForRefund, Expired}
    case TermsAgreed => to in {MakerFunding, WaitingForRefund, Expired}
    case MakerFunding => to in {MakerFunded, WaitingForRefund, Expired}
    case MakerFunded => to in {TakerFunding, WaitingForRefund, Expired}
    case TakerFunding => to in {TakerFunded, WaitingForRefund, Expired}
    case TakerFunded => to in {MakerClaiming, WaitingForRefund}
    case MakerClaiming => to in {MakerClaimed, WaitingForRefund}
    case MakerClaimed => to in {TakerClaiming, WaitingForRefund}
    case TakerClaiming => to in {Complete, WaitingForRefund}
    case AsyncTakerFunding => to in {AsyncTakerFunded, WaitingForRefund, Expired}
    case AsyncTakerFunded => to in {AsyncMakerFunding, WaitingForRefund}
    case AsyncMakerFunding => to in {AsyncMakerFunded, WaitingForRefund}
    case AsyncMakerFunded => to in {AsyncTakerClaiming, WaitingForRefund}
    case AsyncTakerClaiming => to in {AsyncTakerClaimed, WaitingForRefund}
    case AsyncTakerClaimed => to in {AsyncMakerClaiming, WaitingForRefund}
    case AsyncMakerClaiming => to in {Complete, WaitingForRefund}
    case WaitingForRefund => to == Refunding
    case Refunding => to == Refunded
    case _ => false
  }

  predicate ValidRewind(from: Phase, to: Phase) {
    || (from == MakerFunded && to == MakerFunding)
    || (from == TakerFunding && to == MakerFunding)
    || (from == TakerFunded && to == MakerFunding)
    || (from == MakerClaiming && to == MakerFunding)
    || (from == MakerClaiming && to == TakerFunding)
    || (from == TakerFunded && to == TakerFunding)
    || (from == MakerClaimed && to == MakerClaiming)
    || (from == TakerClaiming && to == MakerClaiming)
    || (from == Complete && to == MakerClaiming)
    || (from == Complete && to == TakerClaiming)
    || (from == AsyncTakerFunded && to == AsyncTakerFunding)
    || (from == AsyncMakerFunding && to == AsyncTakerFunding)
    || (from == AsyncMakerFunded && to == AsyncTakerFunding)
    || (from == AsyncMakerFunded && to == AsyncMakerFunding)
    || (from == AsyncTakerClaiming && to == AsyncTakerFunding)
    || (from == AsyncTakerClaiming && to == AsyncMakerFunding)
    || (from == AsyncTakerClaimed && to == AsyncTakerClaiming)
    || (from == AsyncMakerClaiming && to == AsyncTakerClaiming)
    || (from == AsyncMakerClaiming && to == AsyncTakerFunding)
    || (from == Complete && to == AsyncTakerClaiming)
    || (from == Complete && to == AsyncMakerClaiming)
    || (from == Refunded && to == Refunding)
  }

  // ----- record updates

  function FundingOf(r: Swap, p: Party): Option<Notice> {
    if p.Maker? then r.makerFunding else r.takerFunding
  }

  function AdvanceRecord(r: Swap, expected: Phase, next: Phase): Result<Swap, Error> {
    if r.phase != expected then Err(PhaseChanged) else Ok(r.(phase := next, lastError := ""))
  }

  function RewindRecord(r: Swap, expected: Phase, next: Phase, reason: string): Result<Swap, Error> {
    if r.phase != expected then Err(PhaseChanged)
    else
      Ok(r.(phase := next, lastError := reason,
            takerFundingSubmitted := r.takerFundingSubmitted && next != AsyncTakerFunding))
  }

  function SetAgreementDetailsRecord(r: Swap, secretHash: string, hash: string, a: Agreement, expected: Phase)
    : Result<Swap, Error>
  {
    if r.phase != expected then Err(PhaseChanged)
    else if r.secretHash != "" && (r.secretHash != secretHash || r.agreementHash != hash || r.agreement != Some(a)) then
      Err(Immutable)
    else Ok(r.(secretHash := secretHash, agreementHash := hash, agreement := Some(a)))
  }

  function SetFundingRecord(r: Swap, p: Party, n: Notice): Result<Swap, Error> {
    var current := FundingOf(r, p);
    if current.Some? && current.value != n then Err(Immutable)
    else if p.Maker? then Ok(r.(makerFunding := Some(n)))
    else Ok(r.(takerFunding := Some(n)))
  }

  function SetSubmittedRecord(r: Swap, submitted: bool): Result<Swap, Error> {
    if r.version != ASYNC_VERSION then Err(InvalidValue) else Ok(r.(takerFundingSubmitted := submitted))
  }

  function SetTemplateRecord(r: Swap, t: Template): Result<Swap, Error> {
    if r.makerClaimTemplate.Some? && r.makerClaimTemplate.value != t then Err(Immutable)
    else Ok(r.(makerClaimTemplate := Some(t)))
  }

  predicate Approvable(p: Phase) {
    p in {TermsAgreed, MakerFunding, MakerFunded, TakerFunding, TakerFunded, MakerClaiming, MakerClaimed, TakerClaiming,
          AsyncTakerFunding, AsyncTakerFunded, AsyncMakerFunding, AsyncMakerFunded,
          AsyncTakerClaiming, AsyncTakerClaimed, AsyncMakerClaiming}
  }

  function ApproveRecord(r: Swap): Result<Swap, Error> {
    if !Approvable(r.phase) || r.agreement.None? then Err(InvalidValue) else Ok(r.(approved := true))
  }

  function HexDigitValue(c: char): nat {
    if '0' <= c <= '9' then c as nat - '0' as nat else if 'a' <= c <= 'f' then c as nat - 'a' as nat + 10 else 0
  }

  /** The bytes a lowercase hexadecimal text stands for. */
  function HexBytes(s: string): Bytes {
    seq(|s| / 2, i requires 0 <= i < |s| / 2 => (HexDigitValue(s[2 * i]) * 16 + HexDigitValue(s[2 * i + 1])) as char)
  }

  predicate Opens(c: Crypto, secret: string, hash: string) {
    IsDigest(secret) && c.digest(HexBytes(secret)) == hash
  }

  function SetRevealedSecretRecord(c: Crypto, r: Swap, secret: string): Result<Swap, Error> {
    if !Opens(c, secret, r.secretHash) then Err(InvalidValue)
    else if r.revealedSecret != "" && r.revealedSecret != secret then Err(Immutable)
    else Ok(r.(revealedSecret := secret))
  }

  function RelayMatchedRecord(r: Swap): Result<Swap, Error> {
    Ok(r.(relayMatchPending := false))
  }

  function OutboundRecord(r: Swap, key: string, messageID: string): Result<Swap, Error> {
    if key in r.sentMessages && r.sentMessages[key] != "" then (if r.sentMessages[key] == messageID then Ok(r) else Err(Immutable))
    else Ok(r.(sentMessages := r.sentMessages[key := messageID]))
  }

  // ----- write-once evidence

  predicate KeptSome<T(==)>(before: Option<T>, after: Option<T>) {
    before.Some? ==> after == before
  }

  predicate KeptText(before: string, after: string) {
    before != "" ==> after == before
  }

  /** What no update of a stored record ever takes back. */
  predicate Extends(r: Swap, s: Swap) {
    && s.version == r.version && s.id == r.id && s.role == r.role
    && s.order == r.order && s.acceptance == r.acceptance && s.matched == r.matched
    && KeptText(r.secretHash, s.secretHash)
    && (r.secretHash != "" ==> s.agreementHash == r.agreementHash && s.agreement == r.agreement)
    && KeptSome(r.makerFunding, s.makerFunding) && KeptSome(r.takerFunding, s.takerFunding)
    && KeptSome(r.makerClaimTemplate, s.makerClaimTemplate)
    && KeptText(r.revealedSecret, s.revealedSecret)
    && (r.approved ==> s.approved)
    && (s.relayMatchPending ==> r.relayMatchPending)
    && MessagesKept(r.sentMessages, s.sentMessages)
  }

  predicate MessagesKept(before: map<string, string>, after: map<string, string>) {
    forall k :: k in before && before[k] != "" ==> k in after && after[k] == before[k]
  }

  lemma ExtendsTransitive(r: Swap, s: Swap, t: Swap)
    requires Extends(r, s) && Extends(s, t)
    ensures Extends(r, t)
  {
  }

  datatype Update =
    | UAdvance(expected: Phase, next: Phase)
    | URewind(expected: Phase, next: Phase, reason: string)
    | UAgreement(secretHash: string, hash: string, agreement: Agreement, expected: Phase)
    | UFunding(party: Party, notice: Notice)
    | USubmitted(submitted: bool)
    | UTemplate(template: Template)
    | UApprove
    | USecret(secret: string)
    | URelayMatched
    | UOutbound(key: string, messageID: string)

  /** Every update the journal offers, as one function of the stored record. */
  function Apply(c: Crypto, r: Swap, u: Update): Result<Swap, Error> {
    match u
    case UAdvance(e, n) => if !ValidAdvance(e, n) then Err(InvalidAdvance) else AdvanceRecord(r, e, n)
    case URewind(e, n, reason) => if !ValidRewind(e, n) then Err(InvalidAdvance) else RewindRecord(r, e, n, reason)
    case UAgreement(s, h, a, e) =>
      if |s| != 64 || |h| != 64 then Err(InvalidValue) else SetAgreementDetailsRecord(r, s, h, a, e)
    case UFunding(p, n) => SetFundingRecord(r, p, n)
    case USubmitted(b) => SetSubmittedRecord(r, b)
    case UTemplate(t) => SetTemplateRecord(r, t)
    case UApprove => ApproveRecord(r)
    case USecret(s) => SetRevealedSecretRecord(c, r, s)
    case URelayMatched => RelayMatchedRecord(r)
    case UOutbound(k, id) => OutboundRecord(r, k, id)
  }

  function ApplyAll(c: Crypto, r: Swap, us: seq<Update>): Swap {
    if |us| == 0 then r
    else
      var last := ApplyAll(c, r, us[..|us| - 1]);
      var next := Apply(c, last, us[|us| - 1]);
      if next.Ok? then next.value else last
  }

  lemma ApplyExtends(c: Crypto, r: Swap, u: Update)
    ensures Apply(c, r, u).Ok? ==> Extends(r, Apply(c, r, u).value)
  {
    if u.UAdvance? || u.URewind? || u.UAgreement? {
      MovesExtend(c, r, u);
    } else if u.UFunding? || u.USubmitted? || u.UTemplate? {
      EvidenceExtends(c, r, u);
    } else {
      MarksExtend(c, r, u);
    }
  }

  lemma MovesExtend(c: Crypto, r: Swap, u: Update)
    requires u.UAdvance? || u.URewind? || u.UAgreement?
    ensures Apply(c, r, u).Ok? ==> Extends(r, Apply(c, r, u).value)
  {
  }

  lemma EvidenceExtends(c: Crypto, r: Swap, u: Update)
    requires u.UFunding? || u.USubmitted? || u.UTemplate?
    ensures Apply(c, r, u).Ok? ==> Extends(r, Apply(c, r, u).value)
  {
  }

  lemma MarksExtend(c: Crypto, r: Swap, u: Update)
    requires u.UApprove? || u.USecret? || u.URelayMatched? || u.UOutbound?
    ensures Apply(c, r, u).Ok? ==> Extends(r, Apply(c, r, u).value)
  {
  }

  predicate StoresEvidence(u: Update) {
    u.UAgreement? || u.UFunding? || u.UTemplate? || u.USecret? || u.UOutbound?
  }

  /** Storing the same evidence again, as a pass does that was cut off after storing it, succeeds and changes
      nothing. */
  lemma RetryChangesNothing(c: Crypto, r: Swap, u: Update)
    requires StoresEvidence(u) && Apply(c, r, u).Ok?
    ensures Apply(c, Apply(c, r, u).value, u) == Apply(c, r, u)
  {
    if u.UOutbound? {
      var s := Apply(c, r, u).value;
      assert s.sentMessages[u.key := u.messageID] == s.sentMessages;
    }
  }

  /** Storing other evidence in its place is refused. */
  lemma OtherIsRefused(c: Crypto, r: Swap, u: Update)
    requires Apply(c, r, u).Ok?
    ensures
      var s := Apply(c, r, u).value;
      && (u.UFunding? ==> forall n :: Apply(c, s, UFunding(u.party, n)).Ok? <==> n == u.notice)
      && (u.UTemplate? ==> forall t :: Apply(c, s, UTemplate(t)).Ok? <==> t == u.template)
      && (u.USecret? ==> forall x :: Apply(c, s, USecret(x)).Ok? <==> x == u.secret)
      && (u.UOutbound? && u.messageID != "" ==> forall m :: Apply(c, s, UOutbound(u.key, m)).Ok? <==> m == u.messageID)
  {
    hide HexBytes, MessagesKept;
  }

  /** Whatever updates are attempted, in any order and with any failures in between, evidence once
      journaled stays as it was. */
  lemma {:induction false} EvidenceIsWriteOnce(c: Crypto, r: Swap, us: seq<Update>, i: nat)
    requires i <= |us|
    ensures Extends(ApplyAll(c, r, us[..i]), ApplyAll(c, r, us))
    decreases |us|
  {
    if i == |us| {
      assert us[..i] == us;
    } else {
      var front := us[..|us| - 1];
      EvidenceIsWriteOnce(c, r, front, i);
      assert front[..i] == us[..i];
      ApplyExtends(c, ApplyAll(c, r, front), us[|us| - 1]);
      ExtendsTransitive(ApplyAll(c, r, us[..i]), ApplyAll(c, r, front), ApplyAll(c, r, us));
    }
  }

  // ----- the journal

  /** A transaction either commits what `want` computes from the stored record or changes nothing. */
  ghost predicate Committed(before: map<string, Swap>, after: map<string, Swap>, id: string,
                            want: Result<Swap, Error>, got: Result<Swap, Error>)
  {
    || (got == Err(Interrupted) && after == before)
    || (got == want && after == if want.Ok? then before[id := want.value] else before)
  }

  ghost predicate ActionCommitted(before: map<string, Action>, after: map<string, Action>, id: string,
                                  want: Result<Action, Error>, got: Result<Action, Error>)
  {
    || (got == Err(Interrupted) && after == before)
    || (got == want && after == if want.Ok? then before[id := want.value] else before)
  }

  function Stored<T>(m: map<string, T>, id: string): Result<T, Error> {
    if id in m then Ok(m[id]) else Err(NotFound)
  }

  predicate ActionComplete(a: Action) {
    a.id != "" && a.swapID != "" && a.kind != "" && a.chain != "" && a.raw != "" && a.transactionID != ""
  }

  /** The same transaction data, whatever has happened to it since. */
  predicate SameAction(a: Action, b: Action) {
    a.swapID == b.swapID && a.kind == b.kind && a.chain == b.chain && a.raw == b.raw && a.transactionID == b.transactionID
  }

  function PreparedRecord(actions: map<string, Action>, a: Action): Result<Action, Error> {
    if a.id !in actions then Ok(a.(status := Prepared))
    else if SameAction(actions[a.id], a) then Ok(actions[a.id])
    else Err(ActionConflict)
  }

  function BroadcastRecord(a: Action): Result<Action, Error> {
    match a.status
    case Broadcast => Ok(a)
    case Prepared => Ok(a.(status := Broadcast))
    case Confirmed => Err(WrongStatus)
  }

  function ConfirmedRecord(a: Action, height: nat): Result<Action, Error> {
    if height == 0 then Err(InvalidValue)
    else if a.status == Prepared then Err(WrongStatus)
    else Ok(a.(status := Confirmed, blockHeight := height))
  }

  function ReorgedRecord(a: Action): Result<Action, Error> {
    if a.status != Confirmed then Err(WrongStatus) else Ok(a.(status := Broadcast, blockHeight := 0))
  }

  function UpdatedAction(m: map<string, Action>, id: string, update: Action -> Result<Action, Error>): Result<Action, Error> {
    if id in m then update(m[id]) else Err(NotFound)
  }

  // ----- the outbox: protocol messages journaled before they are sent

  predicate KeyValid(key: string) {
    !AllSpace(key) && |key| <= 128
  }

  datatype Outbox = Outbox(trades: map<string, Swap>, messages: map<string, SignedMessage>)

  /** SaveOutboundMessage: binds an envelope to a protocol step, or returns the one already bound. */
  function SaveOutbound(c: Crypto, box: Outbox, swapID: string, key: string, m: SignedMessage)
    : Result<(Outbox, SignedMessage), Error>
  {
    if !KeyValid(key) || m.message.tradeID != swapID || !MessageVerified(c, m, m.message.createdAt) then Err(InvalidValue)
    else if swapID !in box.trades then Err(NotFound)
    else
      var record := box.trades[swapID];
      if key in record.sentMessages && record.sentMessages[key] != "" then
        var bound := record.sentMessages[key];
        if bound !in box.messages then Err(NotFound)
        else if box.messages[bound].id != m.id then Err(Immutable)
        else Ok((box, box.messages[bound]))
      else if m.id in box.messages && box.messages[m.id].message.tradeID != swapID then Err(Immutable)
      else
        var messages := if m.id in box.messages then box.messages else box.messages[m.id := m];
        Ok((Outbox(box.trades[swapID := record.(sentMessages := record.sentMessages[key := m.id])], messages), m))
  }

  class Journal {
    const crypto: Crypto
    var trades: map<string, Swap>
    var actions: map<string, Action>
    var messages: map<string, SignedMessage>
    var relayCursor: nat

    constructor (crypto: Crypto)
      ensures this.crypto == crypto
      ensures trades == map[] && actions == map[] && messages == map[] && relayCursor == 0
    {
      this.crypto := crypto;
      trades, actions, messages, relayCursor := map[], map[], map[], 0;
    }

    /** updateSwap: read the record, compute its update, store it, all in one transaction. */
    method UpdateSwap(id: string, u: Update) returns (r: Result<Swap, Error>)
      modifies this`trades
      ensures Committed(old(trades), trades, id,
                        if id in old(trades) then Apply(crypto, old(trades)[id], u) else Err(NotFound), r)
    {
      var interrupted: bool := *;
      if interrupted {
        return Err(Interrupted);
      }
      if id !in trades {
        return Err(NotFound);
      }
      r := Apply(crypto, trades[id], u);
      if r.Ok? {
        trades := trades[id := r.value];
      }
    }

    method Create(role: Party, order: SignedOrder, acceptance: SignedAcceptance, matched: SignedMatch)
      returns (r: Result<Swap, Error>)
      modifies this`trades
      ensures var fresh_ := NewSwap(role, order, acceptance, matched);
              Committed(old(trades), trades, fresh_.id,
                        if !MatchVerified(crypto, matched, order, acceptance, matched.payload.createdAt) then Err(Rejected)
                        else if fresh_.id !in old(trades) then Ok(fresh_)
                        else if SameSelection(old(trades)[fresh_.id], fresh_) then Ok(old(trades)[fresh_.id])
                        else Err(Immutable), r)
      ensures r != Err(Interrupted) && MatchVerified(crypto, matched, order, acceptance, matched.payload.createdAt) ==>
                var id := acceptance.acceptance.tradeID;
                (r == Err(Immutable) <==>
                 && id in old(trades)
                 && !(old(trades)[id].order.id == order.id && old(trades)[id].acceptance.id == acceptance.id &&
                      old(trades)[id].matched.id == matched.id && old(trades)[id].role == role))
      ensures r.Ok? && acceptance.acceptance.tradeID !in old(trades) ==>
                && acceptance.acceptance.tradeID in trades && trades[acceptance.acceptance.tradeID] == r.value
                && Untouched(r.value, role, order, acceptance, matched) && (r.value.relayMatchPending <==> role == Maker)
    {
      if !MatchVerified(crypto, matched, order, acceptance, matched.payload.createdAt) {
        return Err(Rejected);
      }
      var interrupted: bool := *;
      if interrupted {
        return Err(Interrupted);
      }
      var record := NewSwap(role, order, acceptance, matched);
      if record.id in trades {
        var existing := trades[record.id];
        if !SameSelection(existing, record) {
          return Err(Immutable);
        }
        assert trades[record.id := existing] == trades;
        return Ok(existing);
      }
      trades := trades[record.id := record];
      return Ok(record);
    }

    /** Discards a provisional maker selection; refused once anything could have reached a chain. */
    method RemoveRelayPendingSwap(id: string, acceptanceID: string) returns (r: Result<(), Error>)
      modifies this`trades
      ensures r == Err(Interrupted) ==> trades == old(trades)
      ensures r.Ok? ==> trades == old(trades) - {id}
      ensures r.Err? ==> trades == old(trades)
      ensures r != Err(Interrupted) ==>
                (r.Ok? <==>
                 id in old(trades) ==>
                   old(trades)[id].relayMatchPending && old(trades)[id].phase == Matched &&
                   old(trades)[id].acceptance.id == acceptanceID &&
                   forall k :: k in actions ==> actions[k].swapID != id)
    {
      var interrupted: bool := *;
      if interrupted {
        return Err(Interrupted);
      }
      if id !in trades {
        assert trades - {id} == trades;
        return Ok(());
      }
      var record := trades[id];
      if !record.relayMatchPending || record.phase != Matched || record.acceptance.id != acceptanceID {
        return Err(WrongStatus);
      }
      var keys := actions.Keys;
      while keys != {}
        invariant keys <= actions.Keys
        invariant forall k :: k in actions && k !in keys ==> actions[k].swapID != id
        decreases keys
      {
        var k :| k in keys;
        if actions[k].swapID == id {
          return Err(WrongStatus);
        }
        keys := keys - {k};
      }
      trades := trades - {id};
      return Ok(());
    }

    method PrepareAction(a: Action) returns (r: Result<Action, Error>)
      modifies this`actions
      ensures ActionCommitted(
                old(actions), actions, a.id,
                if !ActionComplete(a) then Err(InvalidValue)
                else if a.swapID !in trades then Err(NotFound)
                else PreparedRecord(old(actions), a), r)
    {
      if !ActionComplete(a) {
        return Err(InvalidValue);
      }
      if a.swapID !in trades {
        return Err(NotFound);
      }
      var interrupted: bool := *;
      if interrupted {
        return Err(Interrupted);
      }
      r := PreparedRecord(actions, a);
      if r.Ok? {
        actions := actions[a.id := r.value];
      }
    }

    method MarkBroadcast(id: string) returns (r: Result<Action, Error>)
      modifies this`actions
      ensures ActionCommitted(old(actions), actions, id, UpdatedAction(old(actions), id, BroadcastRecord), r)
    {
      r := UpdateAction(id, BroadcastRecord);
    }

    method MarkConfirmed(id: string, height: nat) returns (r: Result<Action, Error>)
      modifies this`actions
      ensures ActionCommitted(old(actions), actions, id,
                              UpdatedAction(old(actions), id, a => ConfirmedRecord(a, height)), r)
    {
      r := UpdateAction(id, a => ConfirmedRecord(a, height));
    }

    method MarkReorged(id: string) returns (r: Result<Action, Error>)
      modifies this`actions
      ensures ActionCommitted(old(actions), actions, id, UpdatedAction(old(actions), id, ReorgedRecord), r)
    {
      r := UpdateAction(id, ReorgedRecord);
    }

    method UpdateAction(id: string, update: Action -> Result<Action, Error>) returns (r: Result<Action, Error>)
      modifies this`actions
      ensures ActionCommitted(old(actions), actions, id, UpdatedAction(old(actions), id, update), r)
    {
      var interrupted: bool := *;
      if interrupted {
        return Err(Interrupted);
      }
      if id !in actions {
        return Err(NotFound);
      }
      r := update(actions[id]);
      if r.Ok? {
        actions := actions[id := r.value];
      }
    }

    method SaveOutboundMessage(swapID: string, key: string, m: SignedMessage) returns (r: Result<SignedMessage, Error>)
      modifies this`trades, this`messages
      ensures var want := SaveOutbound(crypto, Outbox(old(trades), old(messages)), swapID, key, m);
              || (r == Err(Interrupted) && trades == old(trades) && messages == old(messages))
              || (want.Err? && r == Err(want.error) && trades == old(trades) && messages == old(messages))
              || (want.Ok? && r == Ok(want.value.1) && Outbox(trades, messages) == want.value.0)
    {
      var interrupted: bool := *;
      if interrupted {
        return Err(Interrupted);
      }
      var want := SaveOutbound(crypto, Outbox(trades, messages), swapID, key, m);
      match want {
        case Err(e) => return Err(e);
        case Ok((box, bound)) =>
          trades, messages := box.trades, box.messages;
          return Ok(bound);
      }
    }

    /** Stores a message from the mailbox; its own creation time is the stable point to verify it at. */
    method SaveRelayMessage(m: SignedMessage) returns (r: Result<bool, Error>)
      modifies this`messages
      ensures r.Err? ==> messages == old(messages)
      ensures r != Err(Interrupted) ==> (r.Ok? <==> MessageVerified(crypto, m, m.message.createdAt))
      ensures r.Ok? ==> r.value == (m.id !in old(messages))
      ensures r.Ok? ==> messages == if m.id in old(messages) then old(messages) else old(messages)[m.id := m]
    {
      if !MessageVerified(crypto, m, m.message.createdAt) {
        return Err(InvalidValue);
      }
      var interrupted: bool := *;
      if interrupted {
        return Err(Interrupted);
      }
      if m.id in messages {
        return Ok(false);
      }
      messages := messages[m.id := m];
      return Ok(true);
    }

    method SetRelayCursor(cursor: nat) returns (r: Result<(), Error>)
      modifies this`relayCursor
      ensures relayCursor == if r.Ok? then cursor else old(relayCursor)
      ensures r.Ok? ==> cursor >= old(relayCursor)
      ensures r != Err(Interrupted) ==> (r.Ok? <==> cursor >= old(relayCursor))
    {
      var interrupted: bool := *;
      if interrupted {
        return Err(Interrupted);
      }
      if cursor < relayCursor {
        return Err(InvalidValue);
      }
      relayCursor := cursor;
      return Ok(());
    }
  }

  function NewSwap(role: Party, order: SignedOrder, acceptance: SignedAcceptance, matched: SignedMatch): Swap {
    Swap(acceptance.acceptance.version, acceptance.acceptance.tradeID, role, Matched, order, acceptance, matched,
         "", "", None, map[], None, None, false, role == Maker, None, false, "", "")
  }

  /** A record of this selection with which nothing has been done yet. */
  predicate Untouched(r: Swap, role: Party, order: SignedOrder, acceptance: SignedAcceptance, matched: SignedMatch) {
    && r.id == acceptance.acceptance.tradeID && r.version == acceptance.acceptance.version && r.phase == Matched
    && r.role == role && r.order == order && r.acceptance == acceptance && r.matched == matched
    && r.agreement.None? && r.secretHash == "" && r.agreementHash == "" && r.sentMessages == map[]
    && r.makerFunding.None? && r.takerFunding.None? && !r.takerFundingSubmitted
    && r.makerClaimTemplate.None? && !r.approved && r.revealedSecret == "" && r.lastError == ""
  }

  predicate SameSelection(existing: Swap, record: Swap) {
    && existing.order.id == record.order.id && existing.acceptance.id == record.acceptance.id
    && existing.matched.id == record.matched.id && existing.role == record.role
  }
}
