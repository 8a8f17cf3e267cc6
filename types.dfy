/**
 * The records the agents exchange and store (packages/shared/src/types.ts),
 * as datatypes. Enumerations become datatypes with one constructor per
 * allowed value, so the enumeration constraints hold by construction; the
 * regular-expression constraints become predicates.
 */
module Types {
  import opened Wrappers
  import Utils

  // ---------------------------------------------------------------------
  // Transport messages
  // ---------------------------------------------------------------------

  datatype AgentType = Farm | Garden
  datatype Direction = In | Out

  /** A message as delivered by the transport. */
  datatype StreamMessage = StreamMessage(
    id: string,
    sender: string,
    content: string,
    timestamp: string,
    conversationId: string,
    agentType: AgentType,
    direction: Direction)

  /** The schema's constraint on a message: the sender is an address. */
  predicate ValidStreamMessage(m: StreamMessage) {
    Utils.IsValidAddress(m.sender)
  }

  // ---------------------------------------------------------------------
  // Farm agent records
  // ---------------------------------------------------------------------

  datatype FarmRequest = FarmRequest(request: string, requestedItem: string, timestamp: string)

  datatype FarmResponse = FarmResponse(requestId: string, item: string, content: string, responseTimeMs: int)

  /** One entry of the farm agent's response log. */
  datatype FarmExchange = FarmExchange(request: FarmRequest, response: FarmResponse)

  datatype FarmStats = FarmStats(
    address: Option<string>,
    requestCount: int,
    avgResponseTimeMs: real,
    recentResponses: seq<FarmExchange>)

  // ---------------------------------------------------------------------
  // Garden agent records
  // ---------------------------------------------------------------------

  datatype PriceTier = PriceTier(name: string, amountUsdc: real, description: string)

  datatype GardenProposal = GardenProposal(basePriceUsdc: real, priceOptions: seq<real>, description: string)

  /** What the x402 SDK's `createPaymentRequirements` returns; only the amount is read here. */
  datatype PaymentRequirements = PaymentRequirements(maxAmountRequired: real, description: string)

  /** The verdict of `evaluateOffer`, standing for its message text. */
  datatype OfferVerdict =
    | Acceptable(amount: real)
    | AcceptableInFlexibleRange(amount: real)
    | Unacceptable(amount: real, minimum: real, flexibleFloor: real)

  /**
   * The replies the garden agent sends, standing for their text; each
   * carries the values its text is built from.
   */
  datatype Reply =
    | PaymentVerified
    | AuthorizationRejected(error: string)
    | ProposalOffer(proposal: GardenProposal)
    | NegotiationOnly
    | CounterOfferAccepted(verdict: OfferVerdict, amount: real, requirements: PaymentRequirements)
    | CounterOfferRejected(verdict: OfferVerdict, minimumAcceptable: real)
    | TierAccepted(tierName: string, price: real, requirements: PaymentRequirements)
    | NegotiationPrompt

  /** The text of a transcript entry: what the counterparty wrote, or a reply the agent composed. */
  datatype Content = Written(text: string) | Composed(reply: Reply)

  datatype Role = User | Assistant

  /** One transcript entry; the timestamp is optional in the schema. */
  datatype NegotiationMessage = NegotiationMessage(role: Role, content: Content, timestamp: Option<string>)

  datatype PaymentStatus = Pending | Committed | InProgress | Completed

  datatype PaymentAgreement = PaymentAgreement(
    id: string,
    conversationId: string,
    amountUsdc: real,
    description: string,
    walletAddress: string,
    status: PaymentStatus,
    createdAt: string,
    committedAt: Option<string>,
    workStartedAt: Option<string>)

  /**
   * The stored conversation with one counterparty. Besides the schema's
   * fields it has the two the garden handler also writes:
   * `paymentAuthorized` and `paymentRequirements`.
   */
  datatype GardenNegotiation = GardenNegotiation(
    conversationId: string,
    userAddress: string,
    proposalSent: Option<GardenProposal>,
    counterOffer: Option<real>,
    accepted: bool,
    paymentCommitted: bool,
    paymentAgreementId: Option<string>,
    messages: seq<NegotiationMessage>,
    createdAt: string,
    updatedAt: string,
    paymentAuthorized: bool,
    paymentRequirements: Option<PaymentRequirements>)

  datatype GardenStats = GardenStats(
    address: Option<string>,
    activeNegotiations: int,
    completedNegotiations: int,
    totalRevenueUsdc: real,
    avgNegotiationRounds: real)

  /** The x402 authorization record of the schema. */
  datatype X402PaymentAuthorization = X402PaymentAuthorization(signature: string, amountUsdc: real, nonce: string)

  // ---------------------------------------------------------------------
  // Schema constraints
  // ---------------------------------------------------------------------

  /** The schema's constraint on a stored conversation: the counterparty is an address. */
  predicate ValidGardenNegotiation(n: GardenNegotiation) {
    Utils.IsValidAddress(n.userAddress)
  }

  /** The schema's constraint on an authorization: `^0x[a-fA-F0-9]{130}$`. */
  predicate ValidX402PaymentAuthorization(a: X402PaymentAuthorization) {
    Utils.IsSignatureText(a.signature)
  }

  /** A signature extracted from a message passes the authorization schema's signature check. */
  lemma ExtractedSignatureIsValid(content: string, amountUsdc: real, nonce: string)
    requires Utils.ExtractSignature(content).Some?
    ensures ValidX402PaymentAuthorization(
              X402PaymentAuthorization(Utils.ExtractSignature(content).value, amountUsdc, nonce))
  {
  }
}
