/** A Bitcoin script interpreter for the opcodes the swap contract uses: segregated witness version 0
    (BIP 141), CHECKLOCKTIMEVERIFY (BIP 65), signatures over what BIP 143 commits to. */
module Script {
  import opened Basics

  type byte = n: nat | n < 256

  type Data = seq<byte>

  const FINAL_SEQUENCE: nat := 0xffff_ffff
  const LOCKTIME_THRESHOLD: nat := 500_000_000

  // ----- transactions

  datatype OutPoint = OutPoint(hash: Data, index: nat)

  datatype TxIn = TxIn(previous: OutPoint, sequence: nat, items: seq<Data>)

  datatype TxOut = TxOut(value: int, pkScript: Data)

  datatype Tx = Tx(version: nat, inputs: seq<TxIn>, outputs: seq<TxOut>, lockTime: nat)

  /** A transaction without its witnesses: all that its ID and its signatures commit to. */
  function Core(tx: Tx): Tx {
    tx.(inputs := seq(|tx.inputs|, i requires 0 <= i < |tx.inputs| => tx.inputs[i].(items := [])))
  }

  /** What a signature of an input covers (BIP 143). */
  datatype SigHash = SigHash(core: Tx, index: nat, script: Data, amount: int)

  /** SHA-256, the secp256k1 point test, the hash of a witness-stripped transaction, key derivation,
      signing and checking: uninterpreted. */
  datatype Primitives = Primitives(
    sha256: Data -> Data,
    onCurve: Data -> bool,
    hash: Tx -> Data,
    publicKey: Data -> Data,
    sign: (Data, SigHash) -> Data,
    checks: (Data, Data, SigHash) -> bool)

  /** An honest signature is not empty and checks under its own key. */
  ghost predicate SignaturesWork(p: Primitives) {
    forall k: Data, h: SigHash :: |p.sign(k, h)| > 0 && p.checks(p.sign(k, h), p.publicKey(k), h)
  }

  /** BIP 141: the transaction ID ignores witnesses. */
  function TxID(p: Primitives, tx: Tx): Data {
    p.hash(Core(tx))
  }

  // ----- script numbers

  /** Little-endian bytes without leading zeros. */
  function Little(v: nat): Data {
    if v == 0 then [] else [v % 256] + Little(v / 256)
  }

  function FromLittle(d: Data): nat {
    if |d| == 0 then 0 else d[0] + 256 * FromLittle(d[1..])
  }

  /** A non-negative script number: a zero byte keeps the sign bit clear. */
  function ScriptNumber(v: nat): Data {
    var d := Little(v);
    if |d| > 0 && d[|d| - 1] >= 128 then d + [0] else d
  }

  /** A script number of at most five bytes; the top bit of the last byte is the sign. */
  function Number(d: Data): Option<int> {
    if |d| > 5 then None
    else if |d| == 0 then Some(0)
    else if d[|d| - 1] >= 128 then
      var magnitude: int := FromLittle(d[..|d| - 1] + [d[|d| - 1] - 128]);
      Some(-magnitude)
    else
      var value: int := FromLittle(d);
      Some(value)
  }

  lemma {:induction false} LittleInverse(v: nat)
    ensures FromLittle(Little(v)) == v
  {
    if v > 0 {
      LittleInverse(v / 256);
      assert Little(v)[1..] == Little(v / 256);
    }
  }

  lemma {:induction false} TrailingZero(d: Data)
    ensures FromLittle(d + [0]) == FromLittle(d)
  {
    if |d| > 0 {
      TrailingZero(d[1..]);
      assert (d + [0])[1..] == d[1..] + [0];
    }
  }

  lemma LittleLength(v: nat)
    requires v < 0x1_0000_0000
    ensures |Little(v)| <= 4
  {
    assert v / 256 < 0x100_0000 && v / 256 / 256 < 0x1_0000 && v / 256 / 256 / 256 < 0x100;
    assert v / 256 / 256 / 256 / 256 == 0;
    assert |Little(v / 256 / 256 / 256)| <= 1;
    assert |Little(v / 256 / 256)| <= 2;
    assert |Little(v / 256)| <= 3;
  }

  /** Every 32-bit height survives being written as a script number. */
  lemma NumberInverse(v: nat)
    requires v < 0x1_0000_0000
    ensures Number(ScriptNumber(v)) == Some(v)
  {
    LittleInverse(v);
    TrailingZero(Little(v));
    LittleLength(v);
  }

  // ----- opcodes

  datatype Op =
    | If | Else | EndIf | Sha256 | EqualVerify | CheckSig | CheckLockTimeVerify | Drop
    | Push(data: Data)

  /** The bytes of an opcode: small numbers have opcodes of their own. */
  function OpBytes(op: Op): Data
    requires op.Push? ==> |op.data| <= 75
  {
    match op
    case If => [0x63]
    case Else => [0x67]
    case EndIf => [0x68]
    case Drop => [0x75]
    case EqualVerify => [0x88]
    case Sha256 => [0xa8]
    case CheckSig => [0xac]
    case CheckLockTimeVerify => [0xb1]
    case Push(d) => if |d| == 1 && 1 <= d[0] <= 16 then [0x50 + d[0]] else [|d|] + d
  }

  predicate Writable(ops: seq<Op>) {
    forall i :: 0 <= i < |ops| ==> (ops[i].Push? ==> |ops[i].data| <= 75)
  }

  function ScriptBytes(ops: seq<Op>): Data
    requires Writable(ops)
  {
    if |ops| == 0 then [] else OpBytes(ops[0]) + ScriptBytes(ops[1..])
  }

  function Simple(b: byte): Option<Op> {
    if b == 0x63 then Some(If) else if b == 0x67 then Some(Else) else if b == 0x68 then Some(EndIf)
    else if b == 0x75 then Some(Drop) else if b == 0x88 then Some(EqualVerify) else if b == 0xa8 then Some(Sha256)
    else if b == 0xac then Some(CheckSig) else if b == 0xb1 then Some(CheckLockTimeVerify)
    else if 0x51 <= b <= 0x60 then Some(Push([b - 0x50]))
    else None
  }

  /** The opcodes of a script; anything outside the contract's repertoire is not parsed. */
  function Parse(d: Data): Option<seq<Op>> {
    if |d| == 0 then Some([])
    else if d[0] <= 75 then
      if |d| < 1 + d[0] then None
      else
        match Parse(d[1 + d[0]..])
        case None => None
        case Some(rest) => Some([Push(d[1..1 + d[0]])] + rest)
    else
      match (Simple(d[0]), Parse(d[1..]))
      case (Some(op), Some(rest)) => Some([op] + rest)
      case (_, _) => None
  }

  /** Reading one opcode back off the front. */
  lemma ParseOne(op: Op, tail: Data)
    requires op.Push? ==> |op.data| <= 75
    ensures Parse(OpBytes(op) + tail) == match Parse(tail) case None => None case Some(rest) => Some([op] + rest)
  {
    var head := OpBytes(op);
    var all := head + tail;
    if head[0] <= 75 {
      assert all[1 + head[0]..] == tail;
      assert all[1..1 + head[0]] == op.data;
    } else {
      assert all[1..] == tail;
      assert op.Push? ==> op.data == [head[0] - 0x50];
      assert Simple(all[0]) == Some(op);
    }
  }

  lemma {:induction false} ParseInverts(ops: seq<Op>)
    requires Writable(ops)
    ensures Parse(ScriptBytes(ops)) == Some(ops)
  {
    hide Parse, OpBytes;
    if |ops| == 0 {
      EmptyParse();
    } else {
      ParseInverts(ops[1..]);
      ParseOne(ops[0], ScriptBytes(ops[1..]));
      assert ops == [ops[0]] + ops[1..];
    }
  }

  lemma EmptyParse()
    ensures Parse([]) == Some([])
  {
  }

  // ----- execution

  datatype Branch = Taken | NotTaken | Skipped

  datatype Machine = Machine(stack: seq<Data>, branches: seq<Branch>)

  /** The spending transaction and the output it spends; `strict` adds the relay policy rules that
      tighten IF arguments and failing signatures. */
  datatype Spend = Spend(p: Primitives, tx: Tx, index: nat, script: Data, amount: int, strict: bool)

  function SigHashOf(s: Spend): SigHash {
    SigHash(Core(s.tx), s.index, s.script, s.amount)
  }

  /** An element is false when it is zero, negative zero included. */
  predicate Truthy(d: Data) {
    exists i :: 0 <= i < |d| && d[i] != 0 && !(i == |d| - 1 && d[i] == 0x80)
  }

  function Condition(d: Data, strict: bool): Option<bool> {
    if strict && d != [] && d != [1] then None else Some(Truthy(d))
  }

  /** BIP 65, "Specification" */
  predicate LockTimeMet(required: int, tx: Tx, index: nat)
    requires index < |tx.inputs|
  {
    && required >= 0
    && (required < LOCKTIME_THRESHOLD <==> tx.lockTime < LOCKTIME_THRESHOLD)
    && required <= tx.lockTime
    && tx.inputs[index].sequence != FINAL_SEQUENCE
  }

  predicate Executing(m: Machine) {
    |m.branches| == 0 || m.branches[|m.branches| - 1].Taken?
  }

  function Top(m: Machine): Data
    requires |m.stack| > 0
  {
    m.stack[|m.stack| - 1]
  }

  function Pop(m: Machine, n: nat): Machine
    requires n <= |m.stack|
  {
    m.(stack := m.stack[..|m.stack| - n])
  }

  function Pushed(m: Machine, d: Data): Machine {
    m.(stack := m.stack + [d])
  }

  function Signed(s: Spend, m: Machine): Option<Machine>
    requires |m.stack| >= 2
  {
    var sig := m.stack[|m.stack| - 2];
    if |sig| > 0 && s.p.checks(sig, Top(m), SigHashOf(s)) then Some(Pushed(Pop(m, 2), [1]))
    else if s.strict && |sig| > 0 then None
    else Some(Pushed(Pop(m, 2), []))
  }

  function Step(s: Spend, op: Op, m: Machine): Option<Machine>
    requires s.index < |s.tx.inputs|
  {
    match op
    case If =>
      if !Executing(m) then Some(m.(branches := m.branches + [Skipped]))
      else if |m.stack| == 0 then None
      else
        (match Condition(Top(m), s.strict)
         case None => None
         case Some(b) => Some(Pop(m, 1).(branches := m.branches + [if b then Taken else NotTaken])))
    case Else =>
      if |m.branches| == 0 then None
      else
        var last := m.branches[|m.branches| - 1];
        var flipped := if last.Taken? then NotTaken else if last.NotTaken? then Taken else Skipped;
        Some(m.(branches := m.branches[..|m.branches| - 1] + [flipped]))
    case EndIf => if |m.branches| == 0 then None else Some(m.(branches := m.branches[..|m.branches| - 1]))
    case _ => if Executing(m) then Operate(s, op, m) else Some(m)
  }

  function Operate(s: Spend, op: Op, m: Machine): Option<Machine>
    requires s.index < |s.tx.inputs| && !op.If? && !op.Else? && !op.EndIf?
  {
    match op
    case Push(d) => Some(Pushed(m, d))
    case Drop => if |m.stack| == 0 then None else Some(Pop(m, 1))
    case Sha256 => if |m.stack| == 0 then None else Some(Pushed(Pop(m, 1), s.p.sha256(Top(m))))
    case EqualVerify =>
      if |m.stack| < 2 || m.stack[|m.stack| - 2] != Top(m) then None else Some(Pop(m, 2))
    case CheckSig => if |m.stack| < 2 then None else Signed(s, m)
    case CheckLockTimeVerify =>
      if |m.stack| == 0 then None
      else
        (match Number(Top(m))
         case None => None
         case Some(required) => if LockTimeMet(required, s.tx, s.index) then Some(m) else None)
  }

  function Execute(s: Spend, ops: seq<Op>, m: Machine): Option<Machine>
    requires s.index < |s.tx.inputs|
  {
    if |ops| == 0 then Some(m)
    else
      match Step(s, ops[0], m)
      case None => None
      case Some(next) => Execute(s, ops[1..], next)
  }

  /** A witness program is satisfied when its script ends with exactly one element, a true one. */
  predicate Satisfies(s: Spend, ops: seq<Op>, stack: seq<Data>)
    requires s.index < |s.tx.inputs|
  {
    match Execute(s, ops, Machine(stack, []))
    case None => false
    case Some(m) => m.branches == [] && |m.stack| == 1 && Truthy(m.stack[0])
  }

  /** Spending a version 0 script hash: the last witness item is the script, the rest its stack. */
  predicate SpendValid(p: Primitives, tx: Tx, index: nat, script: Data, amount: int, strict: bool) {
    && index < |tx.inputs| && |tx.inputs[index].items| > 0
    && var items := tx.inputs[index].items;
       items[|items| - 1] == script && Parse(script).Some?
       && Satisfies(Spend(p, tx, index, script, amount, strict), Parse(script).value, items[..|items| - 1])
  }

  lemma {:induction false} ExecuteConcat(s: Spend, a: seq<Op>, b: seq<Op>, m: Machine)
    requires s.index < |s.tx.inputs|
    ensures Execute(s, a + b, m) ==
            match Execute(s, a, m)
            case None => None
            case Some(next) => Execute(s, b, next)
  {
    if |a| == 0 {
      assert a + b == b;
    } else {
      assert (a + b)[1..] == a[1..] + b;
      match Step(s, a[0], m) {
        case None =>
        case Some(next) => ExecuteConcat(s, a[1..], b, next);
      }
    }
  }

  predicate Plain(op: Op) {
    !op.If? && !op.Else? && !op.EndIf?
  }

  /** A branch not taken does nothing. */
  lemma {:induction false} BranchSkipped(s: Spend, ops: seq<Op>, m: Machine)
    requires s.index < |s.tx.inputs| && !Executing(m) && forall i :: 0 <= i < |ops| ==> Plain(ops[i])
    ensures Execute(s, ops, m) == Some(m)
  {
    if |ops| > 0 {
      BranchSkipped(s, ops[1..], m);
    }
  }
}
