/** One Bitcoin chain answers both questions the engine asks about a refund: Transaction and FindSpend of
    internal/bitcoinwallet/swap.go, and what refundConfirmed of internal/app/engine.go makes of the answer. */
module Chain {
  import opened Basics
  import opened Records
  import opened Script
  import opened Htlc
  import opened Spends
  import E = Engine
  import T = Terms
  import opened Protocol

  /** The wallet's transactions: mined ones in block order, then the unmined. */
  datatype Chain = Chain(mined: seq<Tx>, pool: seq<Tx>)

  predicate SpendsOutput(tx: Tx, f: Funding) {
    exists i :: 0 <= i < |tx.inputs| && tx.inputs[i].previous == OutPoint(f.hash, f.vout)
  }

  function FirstSpender(txs: seq<Tx>, f: Funding): Option<Tx> {
    if |txs| == 0 then None
    else if SpendsOutput(txs[0], f) then Some(txs[0])
    else FirstSpender(txs[1..], f)
  }

  datatype Found = Found(tx: Tx, mined: bool)

  function FindSpend(chain: Chain, f: Funding): Option<Found> {
    match FirstSpender(chain.mined, f)
    case Some(tx) => Some(Found(tx, true))
    case None =>
      match FirstSpender(chain.pool, f)
      case Some(tx) => Some(Found(tx, false))
      case None => None
  }

  /** Transaction: whether the transaction with an ID is mined. */
  predicate IsMined(p: Primitives, chain: Chain, id: Data) {
    exists i :: 0 <= i < |chain.mined| && TxID(p, chain.mined[i]) == id
  }

  /** No output is spent twice on one chain. */
  predicate SpentOnce(mined: seq<Tx>, f: Funding) {
    forall i, j :: 0 <= i < j < |mined| ==> !(SpendsOutput(mined[i], f) && SpendsOutput(mined[j], f))
  }

  /** Every mined spend of the funding satisfies its contract, under consensus or under the relay policy. */
  ghost predicate MinedValid(p: Primitives, c: Contract, f: Funding, mined: seq<Tx>, strict: bool)
    requires ContractValid(p, c)
  {
    forall i, k :: 0 <= i < |mined| && 0 <= k < |mined[i].inputs| && mined[i].inputs[k].previous == OutPoint(f.hash, f.vout) ==>
      ContractSpend(p, c, mined[i], k, strict)
  }

  /** No other transaction has the refund's ID. */
  ghost predicate OnlyRefund(p: Primitives, refund: Tx) {
    forall t: Tx :: p.hash(t) == p.hash(Core(refund)) ==> t == Core(refund)
  }

  /** The recipient has not signed the refund: no mined witness of it carries such a signature. */
  predicate RecipientSilent(p: Primitives, c: Contract, refund: Tx, mined: seq<Tx>)
    requires ContractValid(p, c)
  {
    forall i, k :: 0 <= i < |mined| && Core(mined[i]) == Core(refund) && |mined[i].inputs| > 0 && 0 <= k < |mined[i].inputs[0].items| ==>
      !p.checks(mined[i].inputs[0].items[k], c.recipientKey, SigHash(Core(refund), 0, WitnessScript(p, c), c.amount))
  }

  lemma {:induction false} FirstIsOnly(txs: seq<Tx>, f: Funding, i: nat)
    requires SpentOnce(txs, f) && i < |txs| && SpendsOutput(txs[i], f)
    ensures FirstSpender(txs, f) == Some(txs[i])
  {
    if i > 0 {
      assert !SpendsOutput(txs[0], f);
      FirstIsOnly(txs[1..], f, i - 1);
    }
  }

  lemma SameCore(a: Tx, b: Tx)
    requires Core(a) == Core(b)
    ensures |a.inputs| == |b.inputs| && a.outputs == b.outputs && a.lockTime == b.lockTime
    ensures forall i :: 0 <= i < |a.inputs| ==>
              a.inputs[i].previous == b.inputs[i].previous && a.inputs[i].sequence == b.inputs[i].sequence
  {
    assert |Core(a).inputs| == |a.inputs| && |Core(b).inputs| == |b.inputs|;
    forall i | 0 <= i < |a.inputs|
      ensures a.inputs[i].previous == b.inputs[i].previous && a.inputs[i].sequence == b.inputs[i].sequence
    {
      assert Core(a).inputs[i] == Core(b).inputs[i];
    }
  }

  lemma RefundSpendsFunding(p: Primitives, c: Contract, f: Funding, destination: Data, fee: int, key: Option<Data>)
    requires BuildSpend(p, c, f, destination, fee, key, None).Some?
    ensures ContractValid(p, c) && SpendsFunding(BuildSpend(p, c, f, destination, fee, key, None).value, f)
  {
    hide ContractValid, WitnessScript;
  }

  /** What is mined under the refund's ID is what FindSpend returns: the refund, up to its witness. */
  lemma MinedIsFound(p: Primitives, c: Contract, f: Funding, destination: Data, fee: int, key: Option<Data>, chain: Chain)
    returns (tx: Tx)
    requires BuildSpend(p, c, f, destination, fee, key, None).Some? && ContractValid(p, c)
    requires OnlyRefund(p, BuildSpend(p, c, f, destination, fee, key, None).value) && SpentOnce(chain.mined, f)
    requires IsMined(p, chain, TxID(p, BuildSpend(p, c, f, destination, fee, key, None).value))
    ensures FindSpend(chain, f) == Some(Found(tx, true)) && tx in chain.mined
    ensures Core(tx) == Core(BuildSpend(p, c, f, destination, fee, key, None).value) && SpendsFunding(tx, f)
  {
    hide BuildSpend, Core, ContractValid, WitnessScript, FirstSpender;
    RefundSpendsFunding(p, c, f, destination, fee, key);
    var refund := BuildSpend(p, c, f, destination, fee, key, None).value;
    var i :| 0 <= i < |chain.mined| && TxID(p, chain.mined[i]) == TxID(p, refund);
    tx := chain.mined[i];
    SameCore(tx, refund);
    assert SpendsOutput(tx, f);
    FirstIsOnly(chain.mined, f, i);
  }

  lemma NotAClaim(p: Primitives, c: Contract, refund: Tx, tx: Tx, mined: seq<Tx>, strict: bool)
    requires ContractValid(p, c) && Core(tx) == Core(refund) && tx in mined && RecipientSilent(p, c, refund, mined)
    requires |tx.inputs| > 0 && |tx.inputs[0].items| > 0
    ensures !ClaimForm(SpendOf(p, c, tx, 0, strict), c, StackOf(tx, 0))
  {
    hide Core, ContractValid, WitnessScript, Condition;
  }

  /** Once the journaled refund is mined, FindSpend returns it, and both answers agree exactly when its mined
      witness chooses the branch with the canonical empty flag. Under the relay policy it always does. */
  lemma RefundAnswersAgree(p: Primitives, c: Contract, f: Funding, destination: Data, fee: int, key: Option<Data>,
                           chain: Chain, strict: bool)
    returns (tx: Tx)
    requires BuildSpend(p, c, f, destination, fee, key, None).Some? && ContractValid(p, c) && c.refundHeight < LOCKTIME_THRESHOLD
    requires OnlyRefund(p, BuildSpend(p, c, f, destination, fee, key, None).value) && SpentOnce(chain.mined, f)
    requires MinedValid(p, c, f, chain.mined, strict)
    requires IsMined(p, chain, TxID(p, BuildSpend(p, c, f, destination, fee, key, None).value))
    ensures FindSpend(chain, f) == Some(Found(tx, true)) && |tx.inputs| == 1
    ensures IsRefund(p, c, tx, f) <==> |tx.inputs[0].items| == 3 && tx.inputs[0].items[1] == []
    ensures strict && RecipientSilent(p, c, BuildSpend(p, c, f, destination, fee, key, None).value, chain.mined) ==>
              IsRefund(p, c, tx, f)
  {
    hide BuildSpend, Core, ContractValid, WitnessScript, FindSpend, ContractSpend, IsRefund, RecipientSilent, Condition,
      LockTimeMet;
    var refund := BuildSpend(p, c, f, destination, fee, key, None).value;
    tx := MinedIsFound(p, c, f, destination, fee, key, chain);
    assert ContractSpend(p, c, tx, 0, strict);
    SpendExactly(p, c, tx, 0, strict);
    RefundRecognised(p, c, tx, f, strict);
    if RecipientSilent(p, c, refund, chain.mined) {
      NotAClaim(p, c, refund, tx, chain.mined, strict);
    }
  }

  /** Anyone may exchange the empty flag of a refund for a zero byte: consensus accepts it under the same ID,
      the relay policy refuses it, and IsRefund does not recognise it. */
  lemma FlagIsMalleable(p: Primitives, c: Contract, f: Funding, destination: Data, fee: int, key: Option<Data>)
    returns (other: Tx)
    requires SignaturesWork(p) && c.refundHeight < LOCKTIME_THRESHOLD
    requires BuildSpend(p, c, f, destination, fee, key, None).Some?
    ensures ContractValid(p, c)
    ensures
      var refund := BuildSpend(p, c, f, destination, fee, key, None).value;
      && TxID(p, other) == TxID(p, refund)
      && ContractSpend(p, c, other, 0, false) && !ContractSpend(p, c, other, 0, true)
      && IsRefund(p, c, refund, f) && !IsRefund(p, c, other, f)
  {
    RefundSpendsFunding(p, c, f, destination, fee, key);
    RefundIsValid(p, c, f, destination, fee, key);
    hide ContractValid, WitnessScript, ContractSpend, BuildSpend, IsRefund;
    var refund := BuildSpend(p, c, f, destination, fee, key, None).value;
    RefundShape(p, c, f, destination, fee, key);
    var items := refund.inputs[0].items[1 := [0]];
    other := WithWitness(refund, items);
    CoreIgnoresWitness(refund, items);
    ZeroFlag(p, c, refund, other, f);
  }

  lemma RefundShape(p: Primitives, c: Contract, f: Funding, destination: Data, fee: int, key: Option<Data>)
    requires BuildSpend(p, c, f, destination, fee, key, None).Some?
    ensures ContractValid(p, c)
    ensures
      var refund := BuildSpend(p, c, f, destination, fee, key, None).value;
      |refund.inputs| == 1 && |refund.inputs[0].items| == 3 && refund.inputs[0].items[1] == []
  {
    hide ContractValid, WitnessScript;
  }

  lemma ZeroFlag(p: Primitives, c: Contract, refund: Tx, other: Tx, f: Funding)
    requires ContractValid(p, c) && c.refundHeight < LOCKTIME_THRESHOLD
    requires |refund.inputs| == 1 && |refund.inputs[0].items| == 3 && refund.inputs[0].items[1] == []
    requires other == WithWitness(refund, refund.inputs[0].items[1 := [0]]) && Core(other) == Core(refund)
    requires ContractSpend(p, c, refund, 0, false) && IsRefund(p, c, refund, f)
    ensures ContractSpend(p, c, other, 0, false) && !ContractSpend(p, c, other, 0, true) && !IsRefund(p, c, other, f)
  {
    hide ContractValid, WitnessScript, ContractSpend, Core;
    SpendExactly(p, c, refund, 0, false);
    SpendExactly(p, c, other, 0, false);
    SpendExactly(p, c, other, 0, true);
    Flags();
    ZeroIsFalse();
    assert StackOf(other, 0) == [refund.inputs[0].items[0], [0]];
  }

  lemma ZeroIsFalse()
    ensures !Truthy([0])
  {
  }

  // ----- the contract of an agreement

  /** bitcoinContract: what the agreement fixes, with its hexadecimal texts decoded. */
  function ContractOf(a: T.Agreement, bytes: string -> Data): Contract {
    var keys := T.BitcoinKeys(a);
    Contract(a.bitcoinAmountSatoshi, bytes(a.secretHash), bytes(keys.0), bytes(keys.1), a.bitcoinRefundHeight)
  }

  /** The contract of a validated agreement locks what the order names for the party that funds Bitcoin, to be
      claimed with the other party's signed key or taken back with its own. */
  lemma ContractFollowsOrder(c: Crypto, s: SignedOrder, x: SignedAcceptance, a: T.Agreement, bytes: string -> Data, p: T.Party)
    requires T.ValidateAsync(c, a, s, x) && T.AssetFundedBy(a, p) == "BTC"
    ensures
      var amount := if p.Maker? then s.order.give.atomic else s.order.receive.atomic;
      var maker, taker := bytes(s.order.makerBitcoinKey), bytes(x.acceptance.takerBitcoinKey);
      var contract := ContractOf(a, bytes);
      && AllDigits(amount) && contract.amount == Value(amount) && contract.secretHash == bytes(x.acceptance.secretHash)
      && contract.refundKey == (if p.Maker? then maker else taker)
      && contract.recipientKey == (if p.Maker? then taker else maker)
  {
    T.EachFundsItsAmount(c, s, x, a, p);
    T.AgreementIsSigned(c, s, x, a);
    T.KeysFollowFunding(c, s, x, a, p);
    hide T.ValidateAsync;
  }

  /** The engine turns to the refund of a Bitcoin leg exactly when the next block may hold it: with the wallet at
      a height, the leg counts as due if and only if the contract's refund may be mined one block higher. */
  lemma RefundDueWhenMinable(p: Primitives, a: T.Agreement, bytes: string -> Data, f: Funding, destination: Data, fee: int,
                             key: Option<Data>, height: nat)
    requires a.bitcoinRefundHeight < LOCKTIME_THRESHOLD
    requires BuildSpend(p, ContractOf(a, bytes), f, destination, fee, key, None).Some?
    ensures
      var refund := BuildSpend(p, ContractOf(a, bytes), f, destination, fee, key, None).value;
      && (IsDue(a, "BTC", height) <==> MinableAt(refund, height + 1))
      && (MinableAt(refund, height + 1) <==> height >= a.bitcoinRefundHeight)
      && PaysAllBut(refund, f, destination, fee, a.bitcoinAmountSatoshi)
  {
    var c := ContractOf(a, bytes);
    SpendPays(p, c, f, destination, fee, key, None);
    hide WitnessScript, Signature, PaysAllBut;
    var refund := BuildSpend(p, c, f, destination, fee, key, None).value;
    assert refund.lockTime == c.refundHeight > 0 && refund.inputs[0].sequence != FINAL_SEQUENCE;
  }

  // ----- the engine's view of a Bitcoin leg

  function HexText(d: Data): string {
    if |d| == 0 then "" else HexText(d[..|d| - 1]) + [HEX_DIGITS[d[|d| - 1] / 16], HEX_DIGITS[d[|d| - 1] % 16]]
  }

  const HEX_DIGITS := "0123456789abcdef"

  /** The leg as the engine sees it through the two questions. */
  function LegFrom(p: Primitives, c: Contract, f: Funding, refund: Tx, chain: Chain, observed: bool, confirmed: bool): E.Leg {
    var spend :=
      match FindSpend(chain, f)
      case None => E.Unspent
      case Some(found) =>
        if IsRefund(p, c, found.tx, f) then E.RefundSpend(found.mined)
        else if ExtractSecret(p, c, found.tx, f).Some? then
          E.ClaimSpend(found.mined, HexText(ExtractSecret(p, c, found.tx, f).value))
        else E.Unspent;
    E.Leg(observed, confirmed, spend, IsMined(p, chain, TxID(p, refund)))
  }

  /** What the engine's bound on its rounds needs of the wallet's answers holds of every chain whose mined
      spends meet the relay policy: with the other leg on QDAY, whose wallet answers both by one status. */
  lemma LegsAgree(p: Primitives, c: Contract, f: Funding, destination: Data, fee: int, key: Option<Data>, chain: Chain,
                  observed: bool, confirmed: bool)
    requires BuildSpend(p, c, f, destination, fee, key, None).Some? && ContractValid(p, c) && c.refundHeight < LOCKTIME_THRESHOLD
    requires OnlyRefund(p, BuildSpend(p, c, f, destination, fee, key, None).value) && SpentOnce(chain.mined, f)
    requires MinedValid(p, c, f, chain.mined, true)
    requires RecipientSilent(p, c, BuildSpend(p, c, f, destination, fee, key, None).value, chain.mined)
    ensures
      var leg := LegFrom(p, c, f, BuildSpend(p, c, f, destination, fee, key, None).value, chain, observed, confirmed);
      && (leg.refundMined ==> leg.spend == E.RefundSpend(true))
      && forall other: E.Leg, q: nat, b: int :: !other.refundMined ==>
           E.Coherent(E.View(leg, other, q, b)) && E.Coherent(E.View(other, leg, q, b))
  {
    hide BuildSpend, Core, ContractValid, WitnessScript, FindSpend, ContractSpend, IsRefund, OnlyRefund, SpentOnce,
      MinedValid, IsMined, RecipientSilent;
    var refund := BuildSpend(p, c, f, destination, fee, key, None).value;
    if IsMined(p, chain, TxID(p, refund)) {
      var tx := RefundAnswersAgree(p, c, f, destination, fee, key, chain, true);
    }
  }
}
