/** The hash time-locked contract of internal/bitcoinlike/htlc.go: its script, its spends and the code
    that recognises them. Raw transactions are taken decoded. */
module Htlc {
  import opened Basics
  import opened Trade
  import opened Terms
  import opened Script

  type Secret = d: Data | |d| == 32 witness seq(32, i => 0)

  datatype Contract = Contract(amount: int64, secretHash: Data, recipientKey: Data, refundKey: Data, refundHeight: uint32)

  datatype Funding = Funding(txID: Data, hash: Data, vout: nat, amount: int64)

  /** NewContract; hashes and keys have the fixed sizes of the source's arrays. */
  predicate ContractValid(p: Primitives, c: Contract) {
    && c.amount > 0 && c.refundHeight > 0
    && |c.secretHash| == 32 && (exists i :: 0 <= i < 32 && c.secretHash[i] != 0)
    && |c.recipientKey| == 33 && |c.refundKey| == 33 && p.onCurve(c.recipientKey) && p.onCurve(c.refundKey)
  }

  // ----- the script

  function ClaimOps(c: Contract): seq<Op> {
    [Sha256, Push(c.secretHash), EqualVerify, Push(c.recipientKey), CheckSig]
  }

  function RefundOps(c: Contract): seq<Op> {
    [Push(ScriptNumber(c.refundHeight)), CheckLockTimeVerify, Drop, Push(c.refundKey), CheckSig]
  }

  function ScriptOps(c: Contract): seq<Op> {
    [If] + ClaimOps(c) + [Else] + RefundOps(c) + [EndIf]
  }

  lemma ScriptWritable(p: Primitives, c: Contract)
    requires ContractValid(p, c)
    ensures Writable(ScriptOps(c))
  {
    LittleLength(c.refundHeight);
  }

  function WitnessScript(p: Primitives, c: Contract): Data
    requires ContractValid(p, c)
  {
    ScriptWritable(p, c);
    ScriptBytes(ScriptOps(c))
  }

  function PkScript(p: Primitives, c: Contract): Data
    requires ContractValid(p, c)
  {
    [0, 32] + p.sha256(WitnessScript(p, c))
  }

  // ----- exactly which stacks satisfy it

  /** The preimage of the secret hash and a recipient signature. */
  predicate ClaimForm(s: Spend, c: Contract, stack: seq<Data>) {
    && |stack| == 3 && Condition(stack[2], s.strict) == Some(true)
    && s.p.sha256(stack[1]) == c.secretHash
    && |stack[0]| > 0 && s.p.checks(stack[0], c.recipientKey, SigHashOf(s))
  }

  /** A refund signature, once the lock time is met. */
  predicate RefundForm(s: Spend, c: Contract, stack: seq<Data>)
    requires s.index < |s.tx.inputs|
  {
    && |stack| == 2 && Condition(stack[1], s.strict) == Some(false)
    && LockTimeMet(c.refundHeight, s.tx, s.index)
    && |stack[0]| > 0 && s.p.checks(stack[0], c.refundKey, SigHashOf(s))
  }

  lemma ExecuteOne(s: Spend, op: Op, rest: seq<Op>, m: Machine)
    requires s.index < |s.tx.inputs|
    ensures Execute(s, [op] + rest, m) ==
            match Step(s, op, m)
            case None => None
            case Some(next) => Execute(s, rest, next)
  {
    assert ([op] + rest)[1..] == rest;
  }

  /** Checking a signature under a key just pushed. */
  lemma CheckPushed(s: Spend, key: Data, m: Machine)
    requires s.index < |s.tx.inputs| && Executing(m)
    ensures Execute(s, [Push(key), CheckSig], m) ==
            if |m.stack| == 0 then None else Signed(s, Pushed(m, key))
  {
    hide Signed;
    ExecuteOne(s, Push(key), [CheckSig], m);
    ExecuteOne(s, CheckSig, [], Pushed(m, key));
    assert [Push(key)] + [CheckSig] == [Push(key), CheckSig];
    assert [CheckSig] + [] == [CheckSig];
  }

  lemma ClaimRun(s: Spend, c: Contract, m: Machine)
    requires s.index < |s.tx.inputs| && Executing(m)
    ensures Execute(s, ClaimOps(c), m) ==
            if |m.stack| < 2 || s.p.sha256(Top(m)) != c.secretHash then None
            else Signed(s, Pushed(Pop(m, 1), c.recipientKey))
  {
    hide Signed;
    var check := [Push(c.recipientKey), CheckSig];
    assert ClaimOps(c) == [Sha256] + ([Push(c.secretHash)] + ([EqualVerify] + check));
    ExecuteOne(s, Sha256, [Push(c.secretHash)] + ([EqualVerify] + check), m);
    if |m.stack| > 0 {
      var hashed := Pushed(Pop(m, 1), s.p.sha256(Top(m)));
      ExecuteOne(s, Push(c.secretHash), [EqualVerify] + check, hashed);
      ExecuteOne(s, EqualVerify, check, Pushed(hashed, c.secretHash));
      assert Pop(Pushed(hashed, c.secretHash), 2) == Pop(m, 1);
      CheckPushed(s, c.recipientKey, Pop(m, 1));
    }
  }

  lemma RefundRun(s: Spend, c: Contract, m: Machine)
    requires s.index < |s.tx.inputs| && Executing(m)
    ensures Execute(s, RefundOps(c), m) ==
            if |m.stack| == 0 || !LockTimeMet(c.refundHeight, s.tx, s.index) then None
            else Signed(s, Pushed(m, c.refundKey))
  {
    hide Signed, Number, ScriptNumber, LockTimeMet;
    var check := [Push(c.refundKey), CheckSig];
    var height := ScriptNumber(c.refundHeight);
    assert RefundOps(c) == [Push(height)] + ([CheckLockTimeVerify] + ([Drop] + check));
    ExecuteOne(s, Push(height), [CheckLockTimeVerify] + ([Drop] + check), m);
    var numbered := Pushed(m, height);
    NumberInverse(c.refundHeight);
    ExecuteOne(s, CheckLockTimeVerify, [Drop] + check, numbered);
    ExecuteOne(s, Drop, check, numbered);
    assert Pop(numbered, 1) == m;
    CheckPushed(s, c.refundKey, m);
  }

  /** The whole script when the flag on top chooses the claim. */
  lemma ScriptTaken(s: Spend, c: Contract, stack: seq<Data>)
    requires s.index < |s.tx.inputs| && |stack| > 0 && Condition(stack[|stack| - 1], s.strict) == Some(true)
    ensures Execute(s, ScriptOps(c), Machine(stack, [])) ==
            match Execute(s, ClaimOps(c), Machine(stack[..|stack| - 1], [Taken]))
            case None => None
            case Some(next) => Some(next.(branches := []))
  {
    hide Execute, ClaimOps, RefundOps, Condition;
    var tail := [Else] + (RefundOps(c) + [EndIf]);
    assert ScriptOps(c) == [If] + (ClaimOps(c) + tail);
    ExecuteOne(s, If, ClaimOps(c) + tail, Machine(stack, []));
    var m := Machine(stack[..|stack| - 1], [Taken]);
    assert [] + [Taken] == m.branches;
    assert Step(s, If, Machine(stack, [])) == Some(m);
    ExecuteConcat(s, ClaimOps(c), tail, m);
    ClaimIsPlain(c);
    BranchesKept(s, ClaimOps(c), m);
    match Execute(s, ClaimOps(c), m) {
      case None =>
      case Some(next) => AfterClaim(s, c, next);
    }
  }

  /** And when it chooses the refund. */
  lemma ScriptNotTaken(s: Spend, c: Contract, stack: seq<Data>)
    requires s.index < |s.tx.inputs| && |stack| > 0 && Condition(stack[|stack| - 1], s.strict) == Some(false)
    ensures Execute(s, ScriptOps(c), Machine(stack, [])) ==
            match Execute(s, RefundOps(c), Machine(stack[..|stack| - 1], [Taken]))
            case None => None
            case Some(next) => Some(next.(branches := []))
  {
    hide Execute, ClaimOps, RefundOps, Condition;
    var tail := RefundOps(c) + [EndIf];
    assert ScriptOps(c) == [If] + (ClaimOps(c) + ([Else] + tail));
    ExecuteOne(s, If, ClaimOps(c) + ([Else] + tail), Machine(stack, []));
    var m := Machine(stack[..|stack| - 1], [NotTaken]);
    assert [] + [NotTaken] == m.branches;
    assert Step(s, If, Machine(stack, [])) == Some(m);
    ExecuteConcat(s, ClaimOps(c), [Else] + tail, m);
    ClaimIsPlain(c);
    BranchSkipped(s, ClaimOps(c), m);
    ExecuteOne(s, Else, tail, m);
    var flipped := Machine(stack[..|stack| - 1], [Taken]);
    assert m.branches[..0] + [Taken] == [Taken];
    ExecuteConcat(s, RefundOps(c), [EndIf], flipped);
    RefundIsPlain(c);
    BranchesKept(s, RefundOps(c), flipped);
    match Execute(s, RefundOps(c), flipped) {
      case None =>
      case Some(next) => EndsIf(s, next);
    }
  }

  lemma ClaimIsPlain(c: Contract)
    ensures forall i :: 0 <= i < |ClaimOps(c)| ==> Plain(ClaimOps(c)[i])
  {
  }

  lemma RefundIsPlain(c: Contract)
    ensures forall i :: 0 <= i < |RefundOps(c)| ==> Plain(RefundOps(c)[i])
  {
  }

  lemma EndsIf(s: Spend, m: Machine)
    requires s.index < |s.tx.inputs| && |m.branches| == 1
    ensures Execute(s, [EndIf], m) == Some(m.(branches := []))
  {
    ExecuteOne(s, EndIf, [], m);
    assert [EndIf] + [] == [EndIf];
  }

  lemma AfterClaim(s: Spend, c: Contract, m: Machine)
    requires s.index < |s.tx.inputs| && m.branches == [Taken]
    ensures Execute(s, [Else] + (RefundOps(c) + [EndIf]), m) == Some(m.(branches := []))
  {
    hide Execute, RefundOps;
    ExecuteOne(s, Else, RefundOps(c) + [EndIf], m);
    var flipped := m.(branches := [NotTaken]);
    assert m.branches[..0] + [NotTaken] == [NotTaken];
    ExecuteConcat(s, RefundOps(c), [EndIf], flipped);
    RefundIsPlain(c);
    BranchSkipped(s, RefundOps(c), flipped);
    EndsIf(s, flipped);
  }

  lemma {:induction false} BranchesKept(s: Spend, ops: seq<Op>, m: Machine)
    requires s.index < |s.tx.inputs| && forall i :: 0 <= i < |ops| ==> Plain(ops[i])
    ensures Execute(s, ops, m).Some? ==> Execute(s, ops, m).value.branches == m.branches
  {
    if |ops| > 0 {
      match Step(s, ops[0], m) {
        case None =>
        case Some(next) => BranchesKept(s, ops[1..], next);
      }
    }
  }

  /** Without a usable flag the script fails at once. */
  lemma ScriptStuck(s: Spend, c: Contract, stack: seq<Data>)
    requires s.index < |s.tx.inputs|
    requires |stack| == 0 || Condition(stack[|stack| - 1], s.strict) == None
    ensures Execute(s, ScriptOps(c), Machine(stack, [])) == None
  {
    hide Execute, ClaimOps, RefundOps, Condition;
    var rest := ClaimOps(c) + ([Else] + (RefundOps(c) + [EndIf]));
    assert ScriptOps(c) == [If] + rest;
    ExecuteOne(s, If, rest, Machine(stack, []));
  }

  lemma Flags()
    ensures Truthy([1]) && !Truthy([])
  {
    var one: Data := [1];
    assert one[0] != 0;
  }

  lemma ClaimSatisfies(s: Spend, c: Contract, stack: seq<Data>)
    requires s.index < |s.tx.inputs| && |stack| > 0 && Condition(stack[|stack| - 1], s.strict) == Some(true)
    ensures Satisfies(s, ScriptOps(c), stack) <==> ClaimForm(s, c, stack)
  {
    hide ScriptOps, ClaimOps, Execute, Condition, Truthy;
    var m := Machine(stack[..|stack| - 1], [Taken]);
    ScriptTaken(s, c, stack);
    ClaimRun(s, c, m);
    Flags();
  }

  lemma RefundSatisfies(s: Spend, c: Contract, stack: seq<Data>)
    requires s.index < |s.tx.inputs| && |stack| > 0 && Condition(stack[|stack| - 1], s.strict) == Some(false)
    ensures Satisfies(s, ScriptOps(c), stack) <==> RefundForm(s, c, stack)
  {
    hide ScriptOps, RefundOps, Execute, Condition, Truthy, LockTimeMet;
    var m := Machine(stack[..|stack| - 1], [Taken]);
    ScriptNotTaken(s, c, stack);
    RefundRun(s, c, m);
    Flags();
  }

  /** Every stack that satisfies the contract script is a claim or a refund, and every such one does. */
  lemma SatisfiedExactly(s: Spend, c: Contract, stack: seq<Data>)
    requires s.index < |s.tx.inputs|
    ensures Satisfies(s, ScriptOps(c), stack) <==> ClaimForm(s, c, stack) || RefundForm(s, c, stack)
  {
    hide ScriptOps, Execute, Condition, LockTimeMet;
    if |stack| == 0 || Condition(stack[|stack| - 1], s.strict).None? {
      ScriptStuck(s, c, stack);
    } else if Condition(stack[|stack| - 1], s.strict).value {
      ClaimSatisfies(s, c, stack);
    } else {
      RefundSatisfies(s, c, stack);
    }
  }
}
