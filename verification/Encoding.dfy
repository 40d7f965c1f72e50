/** Canonical signing bytes: the canonicalEncoder buffers and every signingBytes function of
    internal/order/order.go and internal/trade/protocol.go, with a reader that inverts them. */
module Encoding {
  import opened Basics
  import opened Records

  // ----- big-endian integers

  function BigEndian(n: nat, width: nat): (s: Bytes)
    ensures |s| == width
  {
    if width == 0 then "" else BigEndian(n / 256, width - 1) + [(n % 256) as char]
  }

  function FromBigEndian(s: Bytes): nat {
    if |s| == 0 then 0 else FromBigEndian(s[..|s| - 1]) * 256 + s[|s| - 1] as nat
  }

  function Pow256(width: nat): (p: nat)
    ensures p > 0
  {
    if width == 0 then 1 else 256 * Pow256(width - 1)
  }

  lemma {:induction false} BigEndianRoundTrip(n: nat, width: nat)
    requires n < Pow256(width)
    ensures FromBigEndian(BigEndian(n, width)) == n
  {
    if width > 0 {
      BigEndianRoundTrip(n / 256, width - 1);
      assert BigEndian(n, width)[..width - 1] == BigEndian(n / 256, width - 1);
    }
  }

  lemma Widths()
    ensures Pow256(2) == 0x1_0000 && Pow256(4) == TWO_TO_32 && Pow256(8) == TWO_TO_64
  {
    assert Pow256(3) == 256 * Pow256(2);
    assert Pow256(4) == 256 * Pow256(3);
    assert Pow256(5) == 256 * Pow256(4);
    assert Pow256(6) == 256 * Pow256(5);
    assert Pow256(7) == 256 * Pow256(6);
  }

  /** The conversion uint64(value) of a signed 64-bit integer. */
  function Unsigned(v: int64): uint64 {
    if v < 0 then v + TWO_TO_64 else v
  }

  function Signed(u: uint64): int64 {
    if u < TWO_TO_63 then u else u - TWO_TO_64
  }

  // ----- one encoded field

  datatype Field = U16(h: uint16) | U32(w: uint32) | U64(d: uint64) | I64(i: int64) | Text(text: string)

  datatype Kind = KU16 | KU32 | KU64 | KI64 | KText

  function KindOf(f: Field): Kind {
    match f
    case U16(_) => KU16
    case U32(_) => KU32
    case U64(_) => KU64
    case I64(_) => KI64
    case Text(_) => KText
  }

  /** A text's length is written in four bytes, so longer texts would wrap. */
  predicate Fits(f: Field) {
    f.Text? ==> |f.text| < TWO_TO_32
  }

  function EncodeField(f: Field): Bytes {
    match f
    case U16(n) => BigEndian(n, 2)
    case U32(n) => BigEndian(n, 4)
    case U64(n) => BigEndian(n, 8)
    case I64(i) => BigEndian(Unsigned(i), 8)
    case Text(t) => BigEndian(|t| % TWO_TO_32, 4) + t
  }

  function Width(k: Kind): nat {
    match k
    case KU16 => 2
    case KU32 => 4
    case KU64 => 8
    case KI64 => 8
    case KText => 4
  }

  function ReadField(k: Kind, s: Bytes): Option<(Field, Bytes)> {
    if |s| < Width(k) then None
    else
      var n := FromBigEndian(s[..Width(k)]);
      var rest := s[Width(k)..];
      match k
      case KU16 => if n < 0x1_0000 then Some((U16(n), rest)) else None
      case KU32 => if n < TWO_TO_32 then Some((U32(n), rest)) else None
      case KU64 => if n < TWO_TO_64 then Some((U64(n), rest)) else None
      case KI64 => if n < TWO_TO_64 then Some((I64(Signed(n)), rest)) else None
      case KText => if n <= |rest| then Some((Text(rest[..n]), rest[n..])) else None
  }

  lemma PrefixInverts(n: nat, width: nat, rest: Bytes)
    requires n < Pow256(width)
    ensures FromBigEndian((BigEndian(n, width) + rest)[..width]) == n && (BigEndian(n, width) + rest)[width..] == rest
  {
    BigEndianRoundTrip(n, width);
    assert (BigEndian(n, width) + rest)[..width] == BigEndian(n, width);
  }

  lemma ReadFieldInverts(f: Field, rest: Bytes)
    requires Fits(f)
    ensures ReadField(KindOf(f), EncodeField(f) + rest) == Some((f, rest))
  {
    hide BigEndian, FromBigEndian, Pow256;
    Widths();
    match f {
      case U16(n) => PrefixInverts(n, 2, rest);
      case U32(n) => PrefixInverts(n, 4, rest);
      case U64(n) => PrefixInverts(n, 8, rest);
      case I64(i) => PrefixInverts(Unsigned(i), 8, rest);
      case Text(t) => ReadTextInverts(t, rest);
    }
  }

  lemma ReadTextInverts(t: Bytes, rest: Bytes)
    requires |t| < TWO_TO_32
    ensures ReadField(KText, EncodeField(Text(t)) + rest) == Some((Text(t), rest))
  {
    hide BigEndian, FromBigEndian, Pow256;
    Widths();
    Associative(BigEndian(|t|, 4), t, rest);
    PrefixInverts(|t|, 4, t + rest);
    assert (t + rest)[..|t|] == t && (t + rest)[|t|..] == rest;
  }

  // ----- a list of fields

  function Encode(fs: seq<Field>): Bytes {
    if |fs| == 0 then "" else EncodeField(fs[0]) + Encode(fs[1..])
  }

  function Kinds(fs: seq<Field>): (ks: seq<Kind>)
    ensures |ks| == |fs| && forall i :: 0 <= i < |fs| ==> ks[i] == KindOf(fs[i])
  {
    seq(|fs|, i requires 0 <= i < |fs| => KindOf(fs[i]))
  }

  predicate AllFit(fs: seq<Field>) {
    forall i :: 0 <= i < |fs| ==> Fits(fs[i])
  }

  function ReadFields(ks: seq<Kind>, s: Bytes): (r: Option<(seq<Field>, Bytes)>)
    ensures r.Some? ==> Kinds(r.value.0) == ks
  {
    if |ks| == 0 then Some(([], s))
    else
      match ReadField(ks[0], s)
      case None => None
      case Some((f, rest)) =>
        match ReadFields(ks[1..], rest)
        case None => None
        case Some((fs, left)) => Some(([f] + fs, left))
  }

  lemma {:induction false} ReadFieldsInverts(fs: seq<Field>, rest: Bytes)
    requires AllFit(fs)
    ensures ReadFields(Kinds(fs), Encode(fs) + rest) == Some((fs, rest))
  {
    if |fs| == 0 {
      assert Encode(fs) + rest == rest;
    } else {
      assert Encode(fs) + rest == EncodeField(fs[0]) + (Encode(fs[1..]) + rest);
      ReadFieldInverts(fs[0], Encode(fs[1..]) + rest);
      ReadFieldsInverts(fs[1..], rest);
      assert Kinds(fs)[1..] == Kinds(fs[1..]);
      assert [fs[0]] + fs[1..] == fs;
    }
  }

  lemma Associative(x: Bytes, y: Bytes, z: Bytes)
    ensures (x + y) + z == x + (y + z)
  {
  }

  lemma EncodeCons(f: Field, fs: seq<Field>)
    ensures Encode([f] + fs) == EncodeField(f) + Encode(fs)
  {
    assert ([f] + fs)[1..] == fs;
  }

  lemma {:induction false} EncodeConcat(a: seq<Field>, b: seq<Field>)
    ensures Encode(a + b) == Encode(a) + Encode(b)
  {
    if |a| == 0 {
      assert a + b == b;
      assert Encode(a) + Encode(b) == Encode(b);
    } else {
      var f, rest := a[0], a[1..];
      assert a == [f] + rest;
      assert a + b == [f] + (rest + b);
      EncodeCons(f, rest);
      EncodeCons(f, rest + b);
      EncodeConcat(rest, b);
      Associative(EncodeField(f), Encode(rest), Encode(b));
    }
  }

  // ----- the seven kinds of signed record and their ten domain tags

  datatype Record =
    | OrderRecord(order: OrderPayload)
    | OrderCancelRecord(orderCancel: OrderCancellation)
    | AcceptanceRecord(acceptance: AcceptancePayload)
    | AcceptanceCancelRecord(acceptanceCancel: AcceptanceCancellation)
    | MatchRecord(match_: MatchPayload)
    | MessageRecord(message: MessagePayload)
    | PollRecord(poll: PollPayload)

  datatype Tag =
    | TOrder1 | TOrder2 | TCancel | TAcceptance1 | TAcceptance2 | TAcceptanceCancel
    | TMatch1 | TMatch2 | TMessage | TPoll

  function TagBytes(t: Tag): Bytes {
    match t
    case TOrder1 => "QDAY_SWAP_ORDER_V1"
    case TOrder2 => "QDAY_SWAP_ORDER_V2"
    case TCancel => "QDAY_SWAP_CANCEL_V1"
    case TAcceptance1 => "QDAY_SWAP_ACCEPTANCE_V1"
    case TAcceptance2 => "QDAY_SWAP_ACCEPTANCE_V2"
    case TAcceptanceCancel => "QDAY_SWAP_ACCEPTANCE_CANCEL_V1"
    case TMatch1 => "QDAY_SWAP_MATCH_V1"
    case TMatch2 => "QDAY_SWAP_MATCH_V2"
    case TMessage => "QDAY_SWAP_MESSAGE_V1"
    case TPoll => "QDAY_SWAP_MAILBOX_POLL_V1"
  }

  const TAGS: seq<Tag> := [
    TOrder1, TOrder2, TCancel, TAcceptance1, TAcceptance2, TAcceptanceCancel, TMatch1, TMatch2, TMessage, TPoll]

  function TagOf(r: Record): Tag {
    match r
    case OrderRecord(p) => if p.version == ASYNC_VERSION then TOrder2 else TOrder1
    case OrderCancelRecord(_) => TCancel
    case AcceptanceRecord(p) => if p.version == ASYNC_VERSION then TAcceptance2 else TAcceptance1
    case AcceptanceCancelRecord(_) => TAcceptanceCancel
    case MatchRecord(p) => if p.version == ASYNC_VERSION then TMatch2 else TMatch1
    case MessageRecord(_) => TMessage
    case PollRecord(_) => TPoll
  }

  function OrderFields(p: OrderPayload): seq<Field> {
    [U16(p.version), Text(p.network), Text(p.market), Text(p.qdayUnitAtomic), Text(p.makerPublicKey),
     Text(p.makerMessageKey), Text(p.give.asset), Text(p.give.atomic), Text(p.receive.asset),
     Text(p.receive.atomic), I64(p.createdAt), I64(p.expiresAt), Text(p.nonce)]
    + if p.version == ASYNC_VERSION then
        [Text(p.sessionID), Text(p.makerQDAY.classical), Text(p.makerQDAY.reserve), Text(p.makerQDAY.address),
         Text(p.makerBitcoinKey), U64(p.makerQDAYHeight), U32(p.makerBTCHeight)]
      else []
  }

  /** The part of an acceptance before its variable-length list of funding transactions. */
  function AcceptanceHead(p: AcceptancePayload): seq<Field> {
    [U16(p.version), Text(p.network), Text(p.orderID), Text(p.tradeID), Text(p.takerPublicKey),
     Text(p.takerMessageKey), I64(p.createdAt), I64(p.expiresAt)]
    + if p.version == ASYNC_VERSION then
        [Text(p.takerQDAY.classical), Text(p.takerQDAY.reserve), Text(p.takerQDAY.address), Text(p.takerBitcoinKey),
         U64(p.takerQDAYHeight), U32(p.takerBTCHeight), Text(p.secretHash), U64(p.qdayRefundHeight),
         U32(p.btcRefundHeight), Text(p.funding.asset), Text(p.funding.transactionID),
         U64(p.funding.basisHeight), Text(p.funding.basisID), U32(|p.funding.rawTransactions| % TWO_TO_32)]
      else []
  }

  function Texts(ts: seq<string>): (fs: seq<Field>)
    ensures |fs| == |ts| && forall i :: 0 <= i < |ts| ==> fs[i] == Text(ts[i])
  {
    seq(|ts|, i requires 0 <= i < |ts| => Text(ts[i]))
  }

  function AcceptanceFields(p: AcceptancePayload): seq<Field> {
    AcceptanceHead(p) + if p.version == ASYNC_VERSION then Texts(p.funding.rawTransactions) else []
  }

  function Fields(r: Record): seq<Field> {
    match r
    case OrderRecord(p) => OrderFields(p)
    case OrderCancelRecord(p) => [U16(p.version), Text(p.orderID), Text(p.makerPublicKey), I64(p.createdAt)]
    case AcceptanceRecord(p) => AcceptanceFields(p)
    case AcceptanceCancelRecord(p) =>
      [U16(p.version), Text(p.network), Text(p.orderID), Text(p.tradeID), Text(p.acceptanceID),
       Text(p.takerPublicKey), I64(p.createdAt)]
    case MatchRecord(p) =>
      [U16(p.version), Text(p.network), Text(p.orderID), Text(p.tradeID), Text(p.acceptanceID),
       Text(p.makerPublicKey), Text(p.takerPublicKey), I64(p.createdAt)]
    case MessageRecord(p) =>
      [U16(p.version), Text(p.network), Text(p.orderID), Text(p.tradeID), U64(p.sequence),
       Text(p.senderPublicKey), Text(p.recipientPublicKey), I64(p.createdAt), I64(p.expiresAt),
       Text(p.nonce), Text(p.ciphertext)]
    case PollRecord(p) =>
      [U16(p.version), Text(p.network), Text(p.recipientPublicKey), U64(p.after), U16(p.limit),
       I64(p.createdAt), Text(p.nonce)]
  }

  function SigningBytes(r: Record): Bytes {
    TagBytes(TagOf(r)) + Encode(Fields(r))
  }

  /** What validation guarantees and the reader relies on: texts below 2^32 bytes, at most two
      funding transactions, and no asynchronous fields in a version 1 record. */
  predicate Signable(r: Record) {
    AllFit(Fields(r)) &&
    match r
    case OrderRecord(p) =>
      p.version != ASYNC_VERSION ==>
        p.sessionID == "" && p.makerQDAY == NO_KEYS && p.makerBitcoinKey == "" &&
        p.makerQDAYHeight == 0 && p.makerBTCHeight == 0
    case AcceptanceRecord(p) =>
      if p.version == ASYNC_VERSION then |p.funding.rawTransactions| < TWO_TO_32
      else
        p.takerQDAY == NO_KEYS && p.takerBitcoinKey == "" && p.takerQDAYHeight == 0 && p.takerBTCHeight == 0 &&
        p.secretHash == "" && p.qdayRefundHeight == 0 && p.btcRefundHeight == 0 && p.funding == NO_FUNDING
    case _ => true
  }

  // ----- the reader

  function ReadTagFrom(s: Bytes, i: nat): Option<Tag>
    requires i <= |TAGS|
    decreases |TAGS| - i
  {
    if i == |TAGS| then None
    else if TagBytes(TAGS[i]) <= s then Some(TAGS[i])
    else ReadTagFrom(s, i + 1)
  }

  function Schema(t: Tag): seq<Kind> {
    match t
    case TOrder1 => [KU16, KText, KText, KText, KText, KText, KText, KText, KText, KText, KI64, KI64, KText]
    case TOrder2 =>
      [KU16, KText, KText, KText, KText, KText, KText, KText, KText, KText, KI64, KI64, KText,
       KText, KText, KText, KText, KText, KU64, KU32]
    case TCancel => [KU16, KText, KText, KI64]
    case TAcceptance1 => [KU16, KText, KText, KText, KText, KText, KI64, KI64]
    case TAcceptance2 =>
      [KU16, KText, KText, KText, KText, KText, KI64, KI64,
       KText, KText, KText, KText, KU64, KU32, KText, KU64, KU32, KText, KText, KU64, KText, KU32]
    case TAcceptanceCancel => [KU16, KText, KText, KText, KText, KText, KI64]
    case TMatch1 => [KU16, KText, KText, KText, KText, KText, KText, KI64]
    case TMatch2 => [KU16, KText, KText, KText, KText, KText, KText, KI64]
    case TMessage => [KU16, KText, KText, KText, KU64, KText, KText, KI64, KI64, KText, KText]
    case TPoll => [KU16, KText, KText, KU64, KU16, KI64, KText]
  }

  function AsText(f: Field): string {
    if f.Text? then f.text else ""
  }

  function AsU16(f: Field): uint16 {
    if f.U16? then f.h else 0
  }

  function AsU32(f: Field): uint32 {
    if f.U32? then f.w else 0
  }

  function AsU64(f: Field): uint64 {
    if f.U64? then f.d else 0
  }

  function AsI64(f: Field): int64 {
    if f.I64? then f.i else 0
  }

  function TextsOf(fs: seq<Field>): (ts: seq<string>)
    ensures |ts| == |fs| && forall i :: 0 <= i < |fs| ==> ts[i] == AsText(fs[i])
  {
    seq(|fs|, i requires 0 <= i < |fs| => AsText(fs[i]))
  }

  function Build(t: Tag, f: seq<Field>, raws: seq<string>): Record
    requires |f| == |Schema(t)|
  {
    match t
    case TOrder1 =>
      OrderRecord(OrderPayload(
        AsU16(f[0]), AsText(f[1]), AsText(f[2]), AsText(f[3]), AsText(f[4]), AsText(f[5]), Amount(AsText(f[6]), AsText(f[7])),
        Amount(AsText(f[8]), AsText(f[9])), AsI64(f[10]), AsI64(f[11]), AsText(f[12]), "", NO_KEYS, "", 0, 0))
    case TOrder2 =>
      OrderRecord(OrderPayload(
        AsU16(f[0]), AsText(f[1]), AsText(f[2]), AsText(f[3]), AsText(f[4]), AsText(f[5]), Amount(AsText(f[6]), AsText(f[7])),
        Amount(AsText(f[8]), AsText(f[9])), AsI64(f[10]), AsI64(f[11]), AsText(f[12]),
        AsText(f[13]), QDAYKeys(AsText(f[14]), AsText(f[15]), AsText(f[16])), AsText(f[17]), AsU64(f[18]), AsU32(f[19])))
    case TCancel => OrderCancelRecord(OrderCancellation(AsU16(f[0]), AsText(f[1]), AsText(f[2]), AsI64(f[3])))
    case TAcceptance1 =>
      AcceptanceRecord(AcceptancePayload(
        AsU16(f[0]), AsText(f[1]), AsText(f[2]), AsText(f[3]), AsText(f[4]), AsText(f[5]), AsI64(f[6]), AsI64(f[7]),
        NO_KEYS, "", 0, 0, "", 0, 0, NO_FUNDING))
    case TAcceptance2 =>
      AcceptanceRecord(AcceptancePayload(
        AsU16(f[0]), AsText(f[1]), AsText(f[2]), AsText(f[3]), AsText(f[4]), AsText(f[5]), AsI64(f[6]), AsI64(f[7]),
        QDAYKeys(AsText(f[8]), AsText(f[9]), AsText(f[10])), AsText(f[11]), AsU64(f[12]), AsU32(f[13]),
        AsText(f[14]), AsU64(f[15]), AsU32(f[16]),
        FundingPackage(AsText(f[17]), AsText(f[18]), raws, AsU64(f[19]), AsText(f[20]))))
    case TAcceptanceCancel =>
      AcceptanceCancelRecord(AcceptanceCancellation(
        AsU16(f[0]), AsText(f[1]), AsText(f[2]), AsText(f[3]), AsText(f[4]), AsText(f[5]), AsI64(f[6])))
    case TMatch1 =>
      MatchRecord(MatchPayload(
        AsU16(f[0]), AsText(f[1]), AsText(f[2]), AsText(f[3]), AsText(f[4]), AsText(f[5]), AsText(f[6]), AsI64(f[7])))
    case TMatch2 =>
      MatchRecord(MatchPayload(
        AsU16(f[0]), AsText(f[1]), AsText(f[2]), AsText(f[3]), AsText(f[4]), AsText(f[5]), AsText(f[6]), AsI64(f[7])))
    case TMessage =>
      MessageRecord(MessagePayload(
        AsU16(f[0]), AsText(f[1]), AsText(f[2]), AsText(f[3]), AsU64(f[4]), AsText(f[5]), AsText(f[6]),
        AsI64(f[7]), AsI64(f[8]), AsText(f[9]), AsText(f[10])))
    case TPoll =>
      PollRecord(PollPayload(AsU16(f[0]), AsText(f[1]), AsText(f[2]), AsU64(f[3]), AsU16(f[4]), AsI64(f[5]), AsText(f[6])))
  }

  /** Reads back any signed record from its signing bytes alone. */
  function Read(s: Bytes): Option<Record> {
    match ReadTagFrom(s, 0)
    case None => None
    case Some(t) =>
      if |s| < |TagBytes(t)| then None
      else
        match ReadFields(Schema(t), s[|TagBytes(t)|..])
        case None => None
        case Some((head, rest)) =>
          if t != TAcceptance2 then (if rest == "" then Some(Build(t, head, [])) else None)
          else
            match ReadFields(seq(AsU32(head[21]), _ => KText), rest)
            case None => None
            case Some((raws, left)) =>
              if left == "" then Some(Build(t, head, TextsOf(raws))) else None
  }

  /** Any two tags differ at a position both have, so no tag is a prefix of another. */
  lemma TagsDiverge(t: Tag, u: Tag) returns (k: nat)
    requires t != u
    ensures k < |TagBytes(t)| && k < |TagBytes(u)| && TagBytes(t)[k] != TagBytes(u)[k]
  {
    var a, b := TagBytes(t), TagBytes(u);
    if a[10] != b[10] { return 10; }
    if a[11] != b[11] { return 11; }
    if a[12] != b[12] { return 12; }
    if a[17] != b[17] { return 17; }
    if a[21] != b[21] { return 21; }
    return 22;
  }

  lemma {:induction false} ReadTagInverts(t: Tag, s: Bytes, i: nat)
    requires TagBytes(t) <= s && i < |TAGS| && t in TAGS[i..]
    ensures ReadTagFrom(s, i) == Some(t)
    decreases |TAGS| - i
  {
    if TAGS[i] != t {
      var k := TagsDiverge(t, TAGS[i]);
      assert s[k] == TagBytes(t)[k];
      assert !(TagBytes(TAGS[i]) <= s);
      assert t in TAGS[i + 1..];
      ReadTagInverts(t, s, i + 1);
    }
  }

  lemma SchemaDescribes(r: Record)
    requires !r.AcceptanceRecord?
    ensures Kinds(Fields(r)) == Schema(TagOf(r))
  {
  }

  lemma AcceptanceSchemaDescribes(p: AcceptancePayload)
    ensures Kinds(AcceptanceHead(p)) == Schema(TagOf(AcceptanceRecord(p)))
  {
  }

  lemma ReadTag(t: Tag, body: Bytes)
    ensures ReadTagFrom(TagBytes(t) + body, 0) == Some(t)
    ensures (TagBytes(t) + body)[|TagBytes(t)|..] == body
  {
    assert t in TAGS[0..];
    ReadTagInverts(t, TagBytes(t) + body, 0);
  }

  /** Records without a variable-length list. */
  lemma ReadPlain(t: Tag, fs: seq<Field>)
    requires t != TAcceptance2 && AllFit(fs) && Kinds(fs) == Schema(t)
    ensures Read(TagBytes(t) + Encode(fs)) == Some(Build(t, fs, []))
  {
    ReadTag(t, Encode(fs));
    ReadFieldsInverts(fs, "");
    assert Encode(fs) + "" == Encode(fs);
  }

  lemma OrderRebuilt(p: OrderPayload)
    requires Signable(OrderRecord(p))
    ensures Build(TagOf(OrderRecord(p)), OrderFields(p), []) == OrderRecord(p)
  {
  }

  lemma OtherRebuilt(r: Record)
    requires Signable(r) && !r.OrderRecord? && !(r.AcceptanceRecord? && r.acceptance.version == ASYNC_VERSION)
    ensures Build(TagOf(r), Fields(r), []) == r
  {
  }

  /** A head naming how many texts follow it. */
  lemma ReadWithList(head: seq<Field>, raws: seq<string>)
    requires Kinds(head) == Schema(TAcceptance2) && AllFit(head) && AllFit(Texts(raws))
    requires |raws| < TWO_TO_32 && AsU32(head[21]) == |raws|
    ensures Read(TagBytes(TAcceptance2) + (Encode(head) + Encode(Texts(raws)))) ==
            Some(Build(TAcceptance2, head, raws))
  {
    var tail := Texts(raws);
    ReadTag(TAcceptance2, Encode(head) + Encode(tail));
    ReadFieldsInverts(head, Encode(tail));
    assert Kinds(tail) == seq(|raws|, _ => KText);
    ReadFieldsInverts(tail, "");
    assert Encode(tail) + "" == Encode(tail);
    assert TextsOf(tail) == raws;
  }

  /** The fields of a concatenation fit exactly when both parts do. */
  lemma PartsFit(a: seq<Field>, b: seq<Field>)
    requires AllFit(a + b)
    ensures AllFit(a) && AllFit(b)
  {
    assert forall i :: 0 <= i < |a| ==> a[i] == (a + b)[i];
    assert forall i :: 0 <= i < |b| ==> b[i] == (a + b)[|a| + i];
  }

  lemma ReadAsyncAcceptance(p: AcceptancePayload)
    requires Signable(AcceptanceRecord(p)) && p.version == ASYNC_VERSION
    ensures Read(SigningBytes(AcceptanceRecord(p))) == Some(AcceptanceRecord(p))
  {
    var raws := p.funding.rawTransactions;
    var head, tail := AcceptanceHead(p), Texts(raws);
    assert AcceptanceFields(p) == head + tail;
    PartsFit(head, tail);
    EncodeConcat(head, tail);
    AcceptanceSchemaDescribes(p);
    AsyncAcceptanceRebuilt(p);
    ReadWithList(head, raws);
  }

  lemma AsyncAcceptanceRebuilt(p: AcceptancePayload)
    requires p.version == ASYNC_VERSION && |p.funding.rawTransactions| < TWO_TO_32
    ensures |AcceptanceHead(p)| == |Schema(TAcceptance2)|
    ensures AsU32(AcceptanceHead(p)[21]) == |p.funding.rawTransactions|
    ensures Build(TAcceptance2, AcceptanceHead(p), p.funding.rawTransactions) == AcceptanceRecord(p)
  {
  }

  /** Every validated record is recovered exactly from its signing bytes. */
  lemma ReadInverts(r: Record)
    requires Signable(r)
    ensures Read(SigningBytes(r)) == Some(r)
  {
    if r.AcceptanceRecord? && r.acceptance.version == ASYNC_VERSION {
      ReadAsyncAcceptance(r.acceptance);
    } else {
      assert Kinds(Fields(r)) == Schema(TagOf(r)) by {
        if r.AcceptanceRecord? {
          AcceptanceSchemaDescribes(r.acceptance);
          assert AcceptanceFields(r.acceptance) == AcceptanceHead(r.acceptance);
        } else {
          SchemaDescribes(r);
        }
      }
      ReadPlain(TagOf(r), Fields(r));
      if r.OrderRecord? {
        OrderRebuilt(r.order);
      } else {
        OtherRebuilt(r);
      }
    }
  }

  /** Signing bytes determine the record: kinds, versions and every field. */
  lemma SigningBytesInjective(r: Record, s: Record)
    requires Signable(r) && Signable(s)
    requires SigningBytes(r) == SigningBytes(s)
    ensures r == s
  {
    ReadInverts(r);
    ReadInverts(s);
  }

  /** A record whose bytes have no second preimage shares its identity with no other record of any kind. */
  lemma IdentitiesDistinct(c: Crypto, r: Record, s: Record)
    requires NoSecondPreimage(c, SigningBytes(r)) && Signable(r) && Signable(s)
    requires c.digest(SigningBytes(r)) == c.digest(SigningBytes(s))
    ensures r == s
  {
    SigningBytesInjective(r, s);
  }

  // ----- the encoder as the source writes it: a buffer that grows

  class CanonicalEncoder {
    var bytes: Bytes

    constructor (domain: Bytes)
      ensures bytes == domain
    {
      bytes := domain;
    }

    method Put(f: Field)
      modifies this
      ensures bytes == old(bytes) + EncodeField(f)
    {
      match f {
        case U16(n) => bytes := bytes + BigEndian(n, 2);
        case U32(n) => bytes := bytes + BigEndian(n, 4);
        case U64(n) => bytes := bytes + BigEndian(n, 8);
        case I64(i) => bytes := bytes + BigEndian(Unsigned(i), 8);
        case Text(t) =>
          bytes := bytes + BigEndian(|t| % TWO_TO_32, 4);
          bytes := bytes + t;
      }
    }

    method PutAll(fs: seq<Field>)
      modifies this
      ensures bytes == old(bytes) + Encode(fs)
    {
      for i := 0 to |fs|
        invariant bytes == old(bytes) + Encode(fs[..i])
      {
        Put(fs[i]);
        EncodeConcat(fs[..i], [fs[i]]);
        assert fs[..i] + [fs[i]] == fs[..i + 1];
        assert Encode([fs[i]]) == EncodeField(fs[i]) + Encode([fs[i]][1..]);
        assert Encode([fs[i]]) == EncodeField(fs[i]);
      }
      assert fs[..|fs|] == fs;
    }
  }

  /** AcceptancePayload.signingBytes: the fixed fields, then a loop over the funding transactions. */
  method AcceptanceSigningBytes(p: AcceptancePayload) returns (s: Bytes)
    ensures s == SigningBytes(AcceptanceRecord(p))
  {
    var encoder := new CanonicalEncoder(TagBytes(if p.version == ASYNC_VERSION then TAcceptance2 else TAcceptance1));
    encoder.PutAll(AcceptanceHead(p));
    if p.version == ASYNC_VERSION {
      var raws := p.funding.rawTransactions;
      ghost var before := encoder.bytes;
      for i := 0 to |raws|
        invariant encoder.bytes == before + Encode(Texts(raws[..i]))
      {
        encoder.Put(Text(raws[i]));
        TextsSnoc(raws, i);
        Associative(before, Encode(Texts(raws[..i])), EncodeField(Text(raws[i])));
      }
      assert raws[..|raws|] == raws;
      EncodeConcat(AcceptanceHead(p), Texts(raws));
      Associative(TagBytes(TAcceptance2), Encode(AcceptanceHead(p)), Encode(Texts(raws)));
    } else {
      assert AcceptanceHead(p) + [] == AcceptanceHead(p);
    }
    s := encoder.bytes;
  }

  lemma TextsSnoc(raws: seq<string>, i: nat)
    requires i < |raws|
    ensures Encode(Texts(raws[..i + 1])) == Encode(Texts(raws[..i])) + EncodeField(Text(raws[i]))
  {
    var f := Text(raws[i]);
    assert Texts(raws[..i + 1]) == Texts(raws[..i]) + [f];
    EncodeConcat(Texts(raws[..i]), [f]);
    EncodeCons(f, []);
    assert [f] + [] == [f];
  }
}
