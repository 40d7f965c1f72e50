/** The signed records of internal/order/order.go and internal/trade/protocol.go. */
module Records {
  import opened Basics

  const LEGACY_VERSION: uint16 := 1
  const ASYNC_VERSION: uint16 := 2

  datatype Amount = Amount(asset: string, atomic: string)

  datatype QDAYKeys = QDAYKeys(classical: string, reserve: string, address: string)

  const NO_KEYS := QDAYKeys("", "", "")

  datatype OrderPayload = OrderPayload(
    version: uint16, network: string, market: string, qdayUnitAtomic: string,
    makerPublicKey: string, makerMessageKey: string, give: Amount, receive: Amount,
    createdAt: int64, expiresAt: int64, nonce: string,
    sessionID: string, makerQDAY: QDAYKeys, makerBitcoinKey: string,
    makerQDAYHeight: uint64, makerBTCHeight: uint32)

  datatype SignedOrder = SignedOrder(order: OrderPayload, id: string, signature: string)

  datatype OrderCancellation = OrderCancellation(
    version: uint16, orderID: string, makerPublicKey: string, createdAt: int64)

  datatype SignedOrderCancellation = SignedOrderCancellation(cancellation: OrderCancellation, signature: string)

  datatype FundingPackage = FundingPackage(
    asset: string, transactionID: string, rawTransactions: seq<string>, basisHeight: uint64, basisID: string)

  const NO_FUNDING := FundingPackage("", "", [], 0, "")

  datatype AcceptancePayload = AcceptancePayload(
    version: uint16, network: string, orderID: string, tradeID: string,
    takerPublicKey: string, takerMessageKey: string, createdAt: int64, expiresAt: int64,
    takerQDAY: QDAYKeys, takerBitcoinKey: string, takerQDAYHeight: uint64, takerBTCHeight: uint32,
    secretHash: string, qdayRefundHeight: uint64, btcRefundHeight: uint32, funding: FundingPackage)

  datatype SignedAcceptance = SignedAcceptance(acceptance: AcceptancePayload, id: string, signature: string)

  datatype AcceptanceCancellation = AcceptanceCancellation(
    version: uint16, network: string, orderID: string, tradeID: string, acceptanceID: string,
    takerPublicKey: string, createdAt: int64)

  datatype SignedAcceptanceCancellation = SignedAcceptanceCancellation(
    cancellation: AcceptanceCancellation, signature: string)

  datatype MatchPayload = MatchPayload(
    version: uint16, network: string, orderID: string, tradeID: string, acceptanceID: string,
    makerPublicKey: string, takerPublicKey: string, createdAt: int64)

  datatype SignedMatch = SignedMatch(payload: MatchPayload, id: string, signature: string)

  datatype MessagePayload = MessagePayload(
    version: uint16, network: string, orderID: string, tradeID: string, sequence: uint64,
    senderPublicKey: string, recipientPublicKey: string, createdAt: int64, expiresAt: int64,
    nonce: string, ciphertext: string)

  datatype SignedMessage = SignedMessage(message: MessagePayload, id: string, signature: string)

  datatype PollPayload = PollPayload(
    version: uint16, network: string, recipientPublicKey: string, after: uint64, limit: uint16,
    createdAt: int64, nonce: string)
}
