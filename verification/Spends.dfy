/** Building, completing and recognising the spends of a contract: the rest of
    internal/bitcoinlike/htlc.go, and bitcoinSpendFee of internal/app/engine.go. */
module Spends {
  import opened Basics
  import opened Records
  import opened Trade
  import opened Terms
  import opened Script
  import opened Htlc

  // ----- finding the funding

  predicate IsContractOutput(p: Primitives, c: Contract, o: TxOut)
    requires ContractValid(p, c)
  {
    o.value == c.amount && o.pkScript == PkScript(p, c)
  }

  /** FindFunding: exactly one output of the transaction may match. */
  method FindFunding(p: Primitives, c: Contract, tx: Tx) returns (r: Option<nat>)
    ensures !ContractValid(p, c) ==> r == None
    ensures r.Some? ==>
              && ContractValid(p, c) && r.value < |tx.outputs| && IsContractOutput(p, c, tx.outputs[r.value])
              && forall i :: 0 <= i < |tx.outputs| && IsContractOutput(p, c, tx.outputs[i]) ==> i == r.value
    ensures ContractValid(p, c) && r.None? ==>
              forall i :: 0 <= i < |tx.outputs| && IsContractOutput(p, c, tx.outputs[i]) ==>
                exists j :: 0 <= j < |tx.outputs| && j != i && IsContractOutput(p, c, tx.outputs[j])
  {
    hide PkScript, ContractValid;
    if !ContractValid(p, c) {
      return None;
    }
    var found := -1;
    for i := 0 to |tx.outputs|
      invariant -1 <= found < i
      invariant found >= 0 ==> IsContractOutput(p, c, tx.outputs[found])
      invariant forall k :: 0 <= k < i && IsContractOutput(p, c, tx.outputs[k]) ==> k == found
    {
      var output := tx.outputs[i];
      if output.value == c.amount && output.pkScript == PkScript(p, c) {
        if found >= 0 {
          assert IsContractOutput(p, c, tx.outputs[i]);
          return None;
        }
        found := i;
      }
    }
    return if found < 0 then None else Some(found);
  }

  // ----- building

  /** What both builders demand before they look at the key. */
  predicate SpendAllowed(c: Contract, f: Funding, destination: Data, fee: int) {
    && f.amount == c.amount
    && (f.txID != [] ==> f.txID == f.hash)
    && |destination| > 0
    && 0 < fee < c.amount
  }

  function Unsigned(c: Contract, f: Funding, destination: Data, fee: int, lockTime: nat): Tx {
    Tx(2, [TxIn(OutPoint(f.hash, f.vout), 0xffff_fffe, [])], [TxOut(c.amount - fee, destination)], lockTime)
  }

  function Signature(p: Primitives, c: Contract, tx: Tx, key: Data): Data
    requires ContractValid(p, c)
  {
    p.sign(key, SigHash(Core(tx), 0, WitnessScript(p, c), c.amount))
  }

  function WithWitness(tx: Tx, items: seq<Data>): Tx
    requires |tx.inputs| == 1
  {
    tx.(inputs := [tx.inputs[0].(items := items)])
  }

  /** buildSpend: with a secret it claims, without one it refunds. */
  function BuildSpend(p: Primitives, c: Contract, f: Funding, destination: Data, fee: int, key: Option<Data>,
                      secret: Option<Secret>)
    : Option<Tx>
  {
    if !SpendAllowed(c, f, destination, fee) || key.None? then None
    else if secret.Some? && p.sha256(secret.value) != c.secretHash then None
    else if p.publicKey(key.value) != (if secret.Some? then c.recipientKey else c.refundKey) then None
    else if !ContractValid(p, c) then None
    else
      var tx := Unsigned(c, f, destination, fee, if secret.Some? then 0 else c.refundHeight);
      var sig := Signature(p, c, tx, key.value);
      var script := WitnessScript(p, c);
      Some(WithWitness(tx, if secret.Some? then [sig, secret.value, [1], script] else [sig, [], script]))
  }

  function BuildClaimTemplate(p: Primitives, c: Contract, f: Funding, destination: Data, fee: int, key: Option<Data>): Option<Tx> {
    if !SpendAllowed(c, f, destination, fee) then None
    else if key.None? || p.publicKey(key.value) != c.recipientKey then None
    else if !ContractValid(p, c) then None
    else
      var tx := Unsigned(c, f, destination, fee, 0);
      Some(WithWitness(tx, [Signature(p, c, tx, key.value), [], [1], WitnessScript(p, c)]))
  }

  // ----- completing and recognising

  predicate SpendsFunding(tx: Tx, f: Funding) {
    |tx.inputs| == 1 && tx.inputs[0].previous == OutPoint(f.hash, f.vout)
  }

  /** The canonical incomplete claim of this contract. */
  predicate IsTemplate(p: Primitives, c: Contract, f: Funding, tx: Tx) {
    && |tx.outputs| == 1 && SpendsFunding(tx, f)
    && tx.lockTime == 0 && tx.inputs[0].sequence != FINAL_SEQUENCE
    && 0 < tx.outputs[0].value < c.amount
    && ContractValid(p, c)
    && var items := tx.inputs[0].items;
       |items| == 4 && items[0] != [] && items[1] == [] && items[2] != [] && items[3] == WitnessScript(p, c)
  }

  function CompleteClaimTemplate(p: Primitives, c: Contract, tx: Tx, f: Funding, secret: Secret): Option<Tx> {
    if p.sha256(secret) != c.secretHash || !IsTemplate(p, c, f, tx) then None
    else
      var completed := WithWitness(tx, tx.inputs[0].items[1 := secret]);
      if SpendValid(p, completed, 0, WitnessScript(p, c), c.amount, true) then Some(completed) else None
  }

  function ExtractSecret(p: Primitives, c: Contract, tx: Tx, f: Funding): Option<Data> {
    if !SpendsFunding(tx, f) then None
    else
      var items := tx.inputs[0].items;
      if |items| != 4 || |items[1]| != 32 || items[2] == [] then None
      else if !ContractValid(p, c) || items[3] != WitnessScript(p, c) then None
      else if p.sha256(items[1]) != c.secretHash then None
      else Some(items[1])
  }

  predicate IsRefund(p: Primitives, c: Contract, tx: Tx, f: Funding) {
    && SpendsFunding(tx, f)
    && tx.lockTime >= c.refundHeight && tx.inputs[0].sequence != FINAL_SEQUENCE
    && ContractValid(p, c)
    && var items := tx.inputs[0].items;
       |items| == 3 && items[0] != [] && items[1] == [] && items[2] == WitnessScript(p, c)
  }

  // ----- what a valid spend must be

  /** A spend of the contract output by input `index`, valid under consensus rules (strict false) or
      under the relay policy as well (strict true). */
  predicate ContractSpend(p: Primitives, c: Contract, tx: Tx, index: nat, strict: bool)
    requires ContractValid(p, c)
  {
    SpendValid(p, tx, index, WitnessScript(p, c), c.amount, strict)
  }

  function SpendOf(p: Primitives, c: Contract, tx: Tx, index: nat, strict: bool): Spend
    requires ContractValid(p, c)
  {
    Spend(p, tx, index, WitnessScript(p, c), c.amount, strict)
  }

  function StackOf(tx: Tx, index: nat): seq<Data>
    requires index < |tx.inputs| && |tx.inputs[index].items| > 0
  {
    tx.inputs[index].items[..|tx.inputs[index].items| - 1]
  }

  /** A spend is valid exactly when it carries the contract's script and a claim or a refund stack. */
  lemma SpendExactly(p: Primitives, c: Contract, tx: Tx, index: nat, strict: bool)
    requires ContractValid(p, c)
    ensures ContractSpend(p, c, tx, index, strict) <==>
            && index < |tx.inputs| && |tx.inputs[index].items| > 0
            && tx.inputs[index].items[|tx.inputs[index].items| - 1] == WitnessScript(p, c)
            && (|| ClaimForm(SpendOf(p, c, tx, index, strict), c, StackOf(tx, index))
                || RefundForm(SpendOf(p, c, tx, index, strict), c, StackOf(tx, index)))
  {
    hide ContractValid, ScriptOps, Satisfies, ClaimForm, RefundForm, Parse;
    ScriptWritable(p, c);
    ParseInverts(ScriptOps(c));
    if index < |tx.inputs| && |tx.inputs[index].items| > 0 {
      SatisfiedExactly(SpendOf(p, c, tx, index, strict), c, StackOf(tx, index));
    }
  }

  /** Whether a transaction may be mined at a height: it has no lock time, or one that has passed, or all
      its inputs opt out. A lock time that names a moment is taken as passed. */
  predicate MinableAt(tx: Tx, height: nat) {
    || tx.lockTime == 0 || tx.lockTime >= LOCKTIME_THRESHOLD || tx.lockTime < height
    || forall i :: 0 <= i < |tx.inputs| ==> tx.inputs[i].sequence == FINAL_SEQUENCE
  }

  /** The witness rule of BIP 141 for an output that pays to a script hash: the spend shows a script with that
      hash, and satisfies it. */
  predicate ValidSpendOf(p: Primitives, o: TxOut, tx: Tx, index: nat, strict: bool) {
    && |o.pkScript| == 34 && o.pkScript[..2] == [0, 32]
    && index < |tx.inputs| && |tx.inputs[index].items| > 0
    && var shown := tx.inputs[index].items[|tx.inputs[index].items| - 1];
       p.sha256(shown) == o.pkScript[2..] && SpendValid(p, tx, index, shown, o.value, strict)
  }

  /** No other text has the hash of the contract's script. */
  ghost predicate OnlyScript(p: Primitives, c: Contract)
    requires ContractValid(p, c)
  {
    |p.sha256(WitnessScript(p, c))| == 32 && forall d: Data :: p.sha256(d) == p.sha256(WitnessScript(p, c)) ==> d == WitnessScript(p, c)
  }

  /** What FindFunding looks for is an output that exactly the spends of the contract can spend. */
  lemma FundingHoldsContract(p: Primitives, c: Contract, o: TxOut, tx: Tx, index: nat, strict: bool)
    requires ContractValid(p, c) && OnlyScript(p, c) && IsContractOutput(p, c, o)
    ensures o.value == c.amount && (ValidSpendOf(p, o, tx, index, strict) <==> ContractSpend(p, c, tx, index, strict))
  {
    hide ContractValid, WitnessScript, Satisfies, Parse;
    assert o.pkScript[..2] == [0, 32] && o.pkScript[2..] == p.sha256(WitnessScript(p, c));
  }

  /** Up to the refund height every mined spend of the contract reveals a preimage of the secret hash
      and carries a recipient signature. */
  lemma BeforeRefundHeight(p: Primitives, c: Contract, tx: Tx, index: nat, strict: bool, height: nat)
    requires ContractValid(p, c) && c.refundHeight < LOCKTIME_THRESHOLD
    requires ContractSpend(p, c, tx, index, strict) && MinableAt(tx, height) && height <= c.refundHeight
    ensures ClaimForm(SpendOf(p, c, tx, index, strict), c, StackOf(tx, index))
  {
    assert c.refundHeight > 0;
    hide ContractValid, ClaimForm, ContractSpend;
    SpendExactly(p, c, tx, index, strict);
  }

  /** A valid spend that IsRefund accepts took the refund branch; and it accepts every one-input spend of
      the funding through that branch whose flag is the canonical empty one. */
  lemma RefundRecognised(p: Primitives, c: Contract, tx: Tx, f: Funding, strict: bool)
    requires ContractValid(p, c) && c.refundHeight < LOCKTIME_THRESHOLD
    requires SpendsFunding(tx, f) && ContractSpend(p, c, tx, 0, strict)
    ensures IsRefund(p, c, tx, f) <==>
            RefundForm(SpendOf(p, c, tx, 0, strict), c, StackOf(tx, 0)) && StackOf(tx, 0)[1] == []
    ensures strict ==> (IsRefund(p, c, tx, f) <==> !ClaimForm(SpendOf(p, c, tx, 0, strict), c, StackOf(tx, 0)))
  {
    hide ContractValid, ContractSpend, WitnessScript;
    SpendExactly(p, c, tx, 0, strict);
    Flags();
  }

  /** The secret is the only text with its SHA-256. */
  ghost predicate OnlyPreimage(p: Primitives, secret: Secret) {
    forall d: Data :: p.sha256(d) == p.sha256(secret) ==> d == secret
  }

  /** Any valid claim that spends the funding alone reveals the secret to ExtractSecret; a claim among
      further inputs goes unrecognised. */
  lemma ClaimRecognised(p: Primitives, c: Contract, tx: Tx, f: Funding, strict: bool, secret: Secret)
    requires ContractValid(p, c) && OnlyPreimage(p, secret) && p.sha256(secret) == c.secretHash
    requires |tx.inputs| > 0 && tx.inputs[0].previous == OutPoint(f.hash, f.vout)
    requires ContractSpend(p, c, tx, 0, strict) && ClaimForm(SpendOf(p, c, tx, 0, strict), c, StackOf(tx, 0))
    ensures ExtractSecret(p, c, tx, f) == if |tx.inputs| == 1 then Some(secret) else None
  {
    hide ContractValid, ContractSpend, WitnessScript;
    SpendExactly(p, c, tx, 0, strict);
    Flags();
    assert tx.inputs[0].items[1] == secret;
  }

  /** No transaction, valid or not, can pass off another text as the secret; and of the valid spends that
      stand alone, ExtractSecret reads the secret from every claim and from no refund, so it and IsRefund
      never both speak up. */
  lemma ExtractedIsTheSecret(p: Primitives, c: Contract, tx: Tx, f: Funding, strict: bool, secret: Secret)
    requires ContractValid(p, c) && OnlyPreimage(p, secret) && p.sha256(secret) == c.secretHash
    ensures ExtractSecret(p, c, tx, f).None? || ExtractSecret(p, c, tx, f) == Some(secret)
    ensures SpendsFunding(tx, f) && ContractSpend(p, c, tx, 0, strict) ==>
              && (ExtractSecret(p, c, tx, f) == Some(secret) <==> ClaimForm(SpendOf(p, c, tx, 0, strict), c, StackOf(tx, 0)))
              && (ExtractSecret(p, c, tx, f) == None <==> RefundForm(SpendOf(p, c, tx, 0, strict), c, StackOf(tx, 0)))
              && !(IsRefund(p, c, tx, f) && ExtractSecret(p, c, tx, f).Some?)
  {
    hide ContractValid, ContractSpend, WitnessScript, Condition, LockTimeMet;
    if SpendsFunding(tx, f) && ContractSpend(p, c, tx, 0, strict) {
      SpendExactly(p, c, tx, 0, strict);
      if ClaimForm(SpendOf(p, c, tx, 0, strict), c, StackOf(tx, 0)) {
        ClaimRecognised(p, c, tx, f, strict, secret);
      }
    }
  }

  // ----- what a spend pays

  /** The funding alone is spent, and all of the amount but the fee goes to the destination. */
  predicate PaysAllBut(tx: Tx, f: Funding, destination: Data, fee: int, amount: int) {
    && |tx.inputs| == 1 && tx.inputs[0].previous == OutPoint(f.hash, f.vout)
    && |tx.outputs| == 1 && tx.outputs[0].pkScript == destination && tx.outputs[0].value > 0
    && fee > 0 && tx.outputs[0].value + fee == amount
  }

  /** Every claim and every refund pays all of the contract's amount but the fee to the destination, and a
      claim may be mined at once. */
  lemma SpendPays(p: Primitives, c: Contract, f: Funding, destination: Data, fee: int, key: Option<Data>, secret: Option<Secret>)
    requires BuildSpend(p, c, f, destination, fee, key, secret).Some?
    ensures
      var tx := BuildSpend(p, c, f, destination, fee, key, secret).value;
      && PaysAllBut(tx, f, destination, fee, c.amount)
      && (secret.Some? ==> forall height: nat :: MinableAt(tx, height))
  {
    hide ContractValid, WitnessScript, Signature;
  }

  /** So does every template, and whatever completes it. */
  lemma TemplatePays(p: Primitives, c: Contract, f: Funding, destination: Data, fee: int, key: Option<Data>)
    requires BuildClaimTemplate(p, c, f, destination, fee, key).Some?
    ensures
      var template := BuildClaimTemplate(p, c, f, destination, fee, key).value;
      && PaysAllBut(template, f, destination, fee, c.amount)
      && forall g: Funding, secret: Secret :: CompleteClaimTemplate(p, c, template, g, secret).Some? ==>
           PaysAllBut(CompleteClaimTemplate(p, c, template, g, secret).value, f, destination, fee, c.amount)
  {
    hide ContractValid, WitnessScript, Signature, SpendValid;
    var template := BuildClaimTemplate(p, c, f, destination, fee, key).value;
    forall g: Funding, secret: Secret | CompleteClaimTemplate(p, c, template, g, secret).Some?
      ensures PaysAllBut(CompleteClaimTemplate(p, c, template, g, secret).value, f, destination, fee, c.amount)
    {
      assert CompleteClaimTemplate(p, c, template, g, secret).value == WithWitness(template, template.inputs[0].items[1 := secret]);
    }
  }

  // ----- templates

  lemma CoreIgnoresWitness(tx: Tx, items: seq<Data>)
    requires |tx.inputs| == 1
    ensures Core(WithWitness(tx, items)) == Core(tx)
  {
    assert Core(WithWitness(tx, items)).inputs == Core(tx).inputs;
  }

  /** Completing a template, whoever made it, keeps its transaction ID, what it spends and what it pays, and
      yields a spend the relay policy accepts, that may be mined at once and pays some of the amount. */
  lemma CompletionKeepsID(p: Primitives, c: Contract, tx: Tx, f: Funding, secret: Secret)
    requires CompleteClaimTemplate(p, c, tx, f, secret).Some?
    ensures
      var completed := CompleteClaimTemplate(p, c, tx, f, secret).value;
      && TxID(p, completed) == TxID(p, tx)
      && |completed.inputs| == 1 && completed.inputs[0].previous == tx.inputs[0].previous == OutPoint(f.hash, f.vout)
      && |completed.outputs| == 1 && completed.outputs == tx.outputs && 0 < completed.outputs[0].value < c.amount
      && (forall height: nat :: MinableAt(completed, height))
      && ContractValid(p, c) && ContractSpend(p, c, completed, 0, true)
      && ExtractSecret(p, c, completed, f) == Some(secret)
  {
    hide ContractValid, SpendValid, WitnessScript;
    CoreIgnoresWitness(tx, tx.inputs[0].items[1 := secret]);
  }

  /** Signing first and adding the secret later is the same as claiming with the secret at hand: for all
      inputs, with the same refusals. */
  lemma TemplateThenSecretIsClaim(p: Primitives, c: Contract, f: Funding, destination: Data, fee: int,
                                  key: Option<Data>, secret: Secret)
    requires SignaturesWork(p)
    ensures BuildSpend(p, c, f, destination, fee, key, Some(secret)) ==
            match BuildClaimTemplate(p, c, f, destination, fee, key)
            case None => None
            case Some(t) => CompleteClaimTemplate(p, c, t, f, secret)
    ensures BuildSpend(p, c, f, destination, fee, key, Some(secret)).Some? ==>
              PaysAllBut(BuildSpend(p, c, f, destination, fee, key, Some(secret)).value, f, destination, fee, c.amount)
  {
    if BuildSpend(p, c, f, destination, fee, key, Some(secret)).Some? {
      SpendPays(p, c, f, destination, fee, key, Some(secret));
    }
    hide ContractValid, WitnessScript, SpendValid, Core, PaysAllBut;
    var template := BuildClaimTemplate(p, c, f, destination, fee, key);
    if template.Some? && p.sha256(secret) == c.secretHash {
      var tx := Unsigned(c, f, destination, fee, 0);
      var sig := Signature(p, c, tx, key.value);
      var script := WitnessScript(p, c);
      var claim := WithWitness(tx, [sig, secret, [1], script]);
      assert template.value.inputs[0].items[1 := secret] == [sig, secret, [1], script];
      assert WithWitness(template.value, [sig, secret, [1], script]) == claim;
      ClaimIsValid(p, c, tx, key.value, secret);
    }
  }

  /** A claim signed with the recipient's key and the right secret satisfies the contract. */
  lemma ClaimIsValid(p: Primitives, c: Contract, tx: Tx, key: Data, secret: Secret)
    requires SignaturesWork(p) && ContractValid(p, c) && |tx.inputs| == 1
    requires p.publicKey(key) == c.recipientKey && p.sha256(secret) == c.secretHash
    ensures
      var claim := WithWitness(tx, [Signature(p, c, tx, key), secret, [1], WitnessScript(p, c)]);
      ContractSpend(p, c, claim, 0, true) && ContractSpend(p, c, claim, 0, false)
  {
    hide ContractValid, ContractSpend, WitnessScript, Truthy;
    var items := [Signature(p, c, tx, key), secret, [1], WitnessScript(p, c)];
    var claim := WithWitness(tx, items);
    CoreIgnoresWitness(tx, items);
    SpendExactly(p, c, claim, 0, true);
    SpendExactly(p, c, claim, 0, false);
    Flags();
    assert StackOf(claim, 0) == [Signature(p, c, tx, key), secret, [1]];
  }

  /** So the two halves together: completing the template of a swap gives the claim, under the template's
      ID, satisfying the script, from which anyone reads the secret back. */
  lemma TemplateRoundTrip(p: Primitives, c: Contract, f: Funding, destination: Data, fee: int, key: Option<Data>,
                          secret: Secret)
    requires SignaturesWork(p) && BuildClaimTemplate(p, c, f, destination, fee, key).Some?
    requires p.sha256(secret) == c.secretHash
    ensures
      var template := BuildClaimTemplate(p, c, f, destination, fee, key).value;
      var claim := BuildSpend(p, c, f, destination, fee, key, Some(secret));
      && claim.Some? && CompleteClaimTemplate(p, c, template, f, secret) == claim
      && TxID(p, claim.value) == TxID(p, template)
      && PaysAllBut(template, f, destination, fee, c.amount) && PaysAllBut(claim.value, f, destination, fee, c.amount)
      && ContractValid(p, c) && ContractSpend(p, c, claim.value, 0, true)
      && ExtractSecret(p, c, claim.value, f) == Some(secret)
  {
    TemplatePays(p, c, f, destination, fee, key);
    hide ContractValid, WitnessScript, SpendValid, Core, CompleteClaimTemplate, PaysAllBut;
    TemplateThenSecretIsClaim(p, c, f, destination, fee, key, secret);
    CompletionKeepsID(p, c, BuildClaimTemplate(p, c, f, destination, fee, key).value, f, secret);
  }

  /** A refund is valid under the contract, and recognised as one. */
  lemma RefundIsValid(p: Primitives, c: Contract, f: Funding, destination: Data, fee: int, key: Option<Data>)
    requires SignaturesWork(p) && c.refundHeight < LOCKTIME_THRESHOLD
    requires BuildSpend(p, c, f, destination, fee, key, None).Some?
    ensures
      var refund := BuildSpend(p, c, f, destination, fee, key, None).value;
      && ContractValid(p, c) && ContractSpend(p, c, refund, 0, true) && ContractSpend(p, c, refund, 0, false)
      && IsRefund(p, c, refund, f) && PaysAllBut(refund, f, destination, fee, c.amount)
      && (forall height: nat :: MinableAt(refund, height) <==> height > c.refundHeight)
  {
    SpendPays(p, c, f, destination, fee, key, None);
    assert BuildSpend(p, c, f, destination, fee, key, None).Some? ==> ContractValid(p, c) && c.refundHeight > 0;
    hide ContractSpend, WitnessScript, Truthy, ContractValid, PaysAllBut;
    var refund := BuildSpend(p, c, f, destination, fee, key, None).value;
    var tx := Unsigned(c, f, destination, fee, c.refundHeight);
    var items := [Signature(p, c, tx, key.value), [], WitnessScript(p, c)];
    CoreIgnoresWitness(tx, items);
    SpendExactly(p, c, refund, 0, true);
    SpendExactly(p, c, refund, 0, false);
    Flags();
    assert StackOf(refund, 0) == [Signature(p, c, tx, key.value), []];
    assert refund.inputs[0].sequence != FINAL_SEQUENCE;
  }

  // ----- the fee

  function BitcoinSpendFee(amount: int64): int
    requires amount >= 0
  {
    var hundredth := amount / 100;
    var clamped := if hundredth < 1_000 then 1_000 else if hundredth > 10_000 then 10_000 else hundredth;
    if clamped >= amount then amount / 2 else clamped
  }

  /** What the fee is on each stretch: a hundredth between the two bounds, the bounds outside, half of an
      amount too small for the lower one. */
  lemma FeeValues(amount: int64)
    requires amount >= 0
    ensures amount <= 1_000 ==> amount - 1 <= 2 * BitcoinSpendFee(amount) <= amount
    ensures 1_000 < amount <= 100_000 ==> BitcoinSpendFee(amount) == 1_000
    ensures 100_000 <= amount <= 1_000_000 ==>
              100 * BitcoinSpendFee(amount) <= amount < 100 * BitcoinSpendFee(amount) + 100
    ensures amount >= 1_000_000 ==> BitcoinSpendFee(amount) == 10_000
  {
  }

  /** For every amount an order may name the fee is positive and at most a tenth, so the fee guard of the
      builders never refuses it. */
  lemma FeeAccepted(give: Amount, receive: Amount, amount: int64)
    requires PairValid(give, receive)
    requires ParseSatoshis(if receive.asset == "BTC" then receive.atomic else give.atomic) == Some(amount)
    ensures amount >= 0
    ensures 0 < BitcoinSpendFee(amount) <= amount / 10 && BitcoinSpendFee(amount) < amount
  {
  }
}
