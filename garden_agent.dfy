/**
 * The garden agent (apps/agents/src/garden/agent.ts): one negotiation per
 * counterparty, kept in the conversation store. It only engages after a
 * message shows support intent, reads counter-offers before tier
 * selections, and hands payment to the x402 SDK.
 *
 * `Step` says what one inbound message does: the record saved (if any),
 * the reply sent (if any) and the new counters. `GardenAgent.HandleMessage`
 * performs those updates one at a time, as the source does, and is proved
 * to end in the state `Step` describes.
 */
module GardenAgent {
  import opened Wrappers
  import opened Text
  import opened Types
  import opened Negotiation
  import opened Constants
  import opened Memory

  // ---------------------------------------------------------------------
  // The x402 SDK
  // ---------------------------------------------------------------------

  /** A signed payload the SDK recognised in a message; its content is the SDK's business. */
  datatype PaymentAuthorization = PaymentAuthorization(payload: string)

  datatype Verification = Verification(valid: bool, error: string)

  /**
   * The three SDK calls the agent makes. Their behaviour is not part of
   * the repository, so they are arbitrary functions fixed when the agent
   * is created.
   */
  datatype X402Handler = X402Handler(
    parseAuthorization: string -> Option<PaymentAuthorization>,
    verifyAuthorization: (PaymentAuthorization, PaymentRequirements) -> Verification,
    createPaymentRequirements: (real, string) -> PaymentRequirements)

  // ---------------------------------------------------------------------
  // One inbound message, as a function
  // ---------------------------------------------------------------------

  /** `this.stats`. */
  datatype Counters = Counters(active: int, completed: int, revenueUsdc: real, rounds: int)

  /** A reply and the address it goes to. */
  datatype Outgoing = Outgoing(recipient: string, reply: Reply)

  /** What handling one message does: the record saved, the reply sent, and the new counters. */
  datatype Outcome = Outcome(saved: Option<GardenNegotiation>, reply: Option<Reply>, stats: Counters)

  const TierNames: seq<string> := ["minimum", "standard", "premium"]
  const CounterOfferDescription: string := "Garden contribution (counter-offer accepted)"

  function TierDescription(tierName: string): string {
    "Garden contribution (" + tierName + " tier)"
  }

  function UserSaid(content: string, now: string): NegotiationMessage {
    NegotiationMessage(User, Written(content), Some(now))
  }

  function AgentSaid(reply: Reply, now: string): NegotiationMessage {
    NegotiationMessage(Assistant, Composed(reply), Some(now))
  }

  /** The record with the agent's reply appended to its transcript. */
  function WithReply(conversation: GardenNegotiation, reply: Reply, now: string): GardenNegotiation {
    conversation.(messages := conversation.messages + [AgentSaid(reply, now)])
  }

  /**
   * What holds of every record the agent saves: its transcript ends with
   * the agent's reply, payment requirements are only ever stored on an
   * accepted negotiation, and a proposal lists one price per tier.
   */
  predicate WellFormed(n: GardenNegotiation) {
    && n.messages != []
    && n.messages[|n.messages| - 1].role == Assistant
    && Consistent(n)
  }

  /** The part of `WellFormed` that holds in the middle of a step too. */
  predicate Consistent(n: GardenNegotiation) {
    && (n.paymentRequirements.Some? ==> n.accepted)
    && (n.proposalSent.Some? ==> |n.proposalSent.value.priceOptions| == |TierNames|)
  }

  predicate StoreValid(store: Store) {
    WellKeyed(store) && forall k :: k in store ==> WellFormed(store[k])
  }

  /** Lines 73-122: an authorization arrived for a negotiation that has payment requirements. */
  function PaymentStep(x402: X402Handler, conversation: GardenNegotiation, authorization: PaymentAuthorization,
                       requirements: PaymentRequirements, stats: Counters, now: string): (r: Outcome)
    ensures r.saved.Some? && r.reply.Some? && r.stats.rounds == stats.rounds
    ensures r.saved.value.paymentAuthorized
            <==> conversation.paymentAuthorized || x402.verifyAuthorization(authorization, requirements).valid
    ensures r.stats.completed
            == stats.completed + if x402.verifyAuthorization(authorization, requirements).valid then 1 else 0
  {
    var verification := x402.verifyAuthorization(authorization, requirements);
    if verification.valid then
      var paid := conversation.(paymentAuthorized := true, accepted := true);
      Outcome(Some(WithReply(paid, PaymentVerified, now)), Some(PaymentVerified),
              stats.(completed := stats.completed + 1, active := stats.active - 1,
                     revenueUsdc := stats.revenueUsdc + requirements.maxAmountRequired))
    else
      var reply := AuthorizationRejected(verification.error);
      Outcome(Some(WithReply(conversation, reply, now)), Some(reply), stats)
  }

  /** Lines 124-161: the first message from a counterparty with no stored negotiation. */
  function OpeningStep(engine: NegotiationEngine, message: StreamMessage, stats: Counters, now: string): (r: Outcome)
    ensures r.reply.Some? && r.stats.completed == stats.completed && r.stats.revenueUsdc == stats.revenueUsdc
    ensures r.saved.Some? <==> engine.IsSupportIntent(message.content)
    ensures r.saved.Some? ==> && r.saved.value.userAddress == message.sender && !r.saved.value.accepted
                              && r.saved.value.proposalSent == Some(engine.CreateProposal())
  {
    if engine.IsSupportIntent(message.content) then
      var proposal := engine.CreateProposal();
      var conversation := GardenNegotiation(
        message.conversationId, message.sender, Some(proposal), None, false, false, None,
        [UserSaid(message.content, now)], now, now, false, None);
      Outcome(Some(WithReply(conversation, ProposalOffer(proposal), now)), Some(ProposalOffer(proposal)),
              stats.(active := stats.active + 1))
    else
      Outcome(None, Some(NegotiationOnly), stats)
  }

  /** The record once the user's message is heard (lines 163-169). */
  function Heard(conversation: GardenNegotiation, content: string, now: string): GardenNegotiation {
    conversation.(messages := conversation.messages + [UserSaid(content, now)], updatedAt := now)
  }

  /** Lines 171-230: a counter-offer is recorded, counted as a round, and evaluated. */
  function CounterOfferStep(x402: X402Handler, engine: NegotiationEngine, heard: GardenNegotiation,
                            counter: real, stats: Counters, now: string): (r: Outcome)
    ensures r.saved.Some? && r.reply.Some? && r.stats == stats.(rounds := stats.rounds + 1)
    ensures r.saved.value.counterOffer == Some(counter)
    ensures r.saved.value.accepted <==> heard.accepted || engine.EvaluateOffer(counter).accepted
  {
    var countered := heard.(counterOffer := Some(counter));
    var counted := stats.(rounds := stats.rounds + 1);
    var evaluation := engine.EvaluateOffer(counter);
    if evaluation.accepted then
      var requirements := x402.createPaymentRequirements(counter, CounterOfferDescription);
      var reply := CounterOfferAccepted(evaluation.verdict, counter, requirements);
      Outcome(Some(WithReply(countered.(paymentRequirements := Some(requirements), accepted := true), reply, now)),
              Some(reply), counted)
    else
      var reply := CounterOfferRejected(evaluation.verdict, engine.GetMinimumAcceptable());
      Outcome(Some(WithReply(countered, reply, now)), Some(reply), counted)
  }

  /** Lines 232-276: a tier chosen from the proposal is accepted at its price; anything else gets the prompt. */
  function SelectionStep(x402: X402Handler, engine: NegotiationEngine, heard: GardenNegotiation,
                         stats: Counters, content: string, now: string): (r: Outcome)
    requires Consistent(heard)
    ensures r.saved.Some? && r.reply.Some? && r.stats == stats
    ensures r.saved.value.accepted
            <==> heard.accepted || (engine.ExtractTier(content).Some? && heard.proposalSent.Some?)
    ensures r.reply == Some(NegotiationPrompt) <==> engine.ExtractTier(content).None? || heard.proposalSent.None?
  {
    var tier := engine.ExtractTier(content);
    if tier.Some? && heard.proposalSent.Some? then
      var price := heard.proposalSent.value.priceOptions[tier.value];
      var requirements := x402.createPaymentRequirements(price, TierDescription(TierNames[tier.value]));
      var reply := TierAccepted(TierNames[tier.value], price, requirements);
      Outcome(Some(WithReply(heard.(paymentRequirements := Some(requirements), accepted := true), reply, now)),
              Some(reply), stats)
    else
      Outcome(Some(WithReply(heard, NegotiationPrompt, now)), Some(NegotiationPrompt), stats)
  }

  /** Lines 163-276: a message in an ongoing negotiation: a counter-offer, else a tier, else the prompt. */
  function OngoingStep(x402: X402Handler, engine: NegotiationEngine, conversation: GardenNegotiation,
                       stats: Counters, message: StreamMessage, now: string): (r: Outcome)
    requires WellFormed(conversation)
    ensures r.saved.Some? && r.reply.Some?
    ensures r.saved.value.userAddress == conversation.userAddress
    ensures r.stats == stats.(rounds := stats.rounds + if engine.ExtractCounterOffer(message.content).Some? then 1 else 0)
  {
    var heard := Heard(conversation, message.content, now);
    var counter := engine.ExtractCounterOffer(message.content);
    if counter.Some? then CounterOfferStep(x402, engine, heard, counter.value, stats, now)
    else SelectionStep(x402, engine, heard, stats, message.content, now)
  }

  /** Whether a message is the agent's own, or arrives before the agent has an address. */
  predicate Ignored(address: Option<string>, message: StreamMessage) {
    address.None? || EqualIgnoringCase(message.sender, address.value)
  }

  /** Whether the message takes the payment branch, given what the store holds for its sender. */
  predicate TakesPaymentBranch(x402: X402Handler, store: Store, message: StreamMessage) {
    && x402.parseAuthorization(message.content).Some?
    && Load(store, message.sender).Some?
    && Load(store, message.sender).value.paymentRequirements.Some?
  }

  /** `handleMessage`, as a function of the agent's state and the inbound message. */
  function Step(x402: X402Handler, engine: NegotiationEngine, address: Option<string>, store: Store,
                stats: Counters, message: StreamMessage, now: string): (r: Outcome)
    requires StoreValid(store)
    ensures r.reply.Some? <==> !Ignored(address, message)
    ensures r.stats.completed != stats.completed ==> TakesPaymentBranch(x402, store, message)
  {
    if Ignored(address, message) then Outcome(None, None, stats)
    else
      var loaded := Load(store, message.sender);
      if TakesPaymentBranch(x402, store, message) then
        PaymentStep(x402, loaded.value, x402.parseAuthorization(message.content).value,
                    loaded.value.paymentRequirements.value, stats, now)
      else if loaded.None? then OpeningStep(engine, message, stats, now)
      else OngoingStep(x402, engine, loaded.value, stats, message, now)
  }

  /** The store after the outcome's record, if any, is saved. */
  function StoreAfter(store: Store, outcome: Outcome): Store {
    if outcome.saved.Some? then Save(store, outcome.saved.value) else store
  }

  /** The outbox after the outcome's reply, if any, is sent to `recipient`. */
  function OutboxAfter(outbox: seq<Outgoing>, recipient: string, outcome: Outcome): seq<Outgoing> {
    outbox + if outcome.reply.Some? then [Outgoing(recipient, outcome.reply.value)] else []
  }

  // ---------------------------------------------------------------------
  // What one message does
  // ---------------------------------------------------------------------

  /** Exactly one reply for every message the agent does not ignore, and a record is only saved alongside one. */
  lemma OneReplyPerMessage(x402: X402Handler, engine: NegotiationEngine, address: Option<string>, store: Store,
                           stats: Counters, message: StreamMessage, now: string)
    requires StoreValid(store)
    ensures var out := Step(x402, engine, address, store, stats, message, now);
            && (out.reply.Some? <==> !Ignored(address, message))
            && (Ignored(address, message) ==> out.saved.None? && out.stats == stats)
            && (out.saved.Some? ==> out.reply.Some?)
  {
  }

  /**
   * `after` is `before` carried forward: the same negotiation, nothing
   * accepted or paid is reset, and the transcript only grows.
   */
  predicate Extends(before: GardenNegotiation, after: GardenNegotiation) {
    && after.userAddress == before.userAddress
    && after.conversationId == before.conversationId
    && after.createdAt == before.createdAt
    && after.proposalSent == before.proposalSent
    && (before.accepted ==> after.accepted)
    && (before.paymentAuthorized ==> after.paymentAuthorized)
    && before.messages <= after.messages
  }

  /** The record a step saves ends with the reply it sends and is well formed. */
  predicate SavedWithReply(out: Outcome, now: string) {
    out.saved.Some? ==>
      && out.reply.Some?
      && WellFormed(out.saved.value)
      && out.saved.value.messages[|out.saved.value.messages| - 1] == AgentSaid(out.reply.value, now)
  }

  lemma PaymentStepSaves(x402: X402Handler, conversation: GardenNegotiation, authorization: PaymentAuthorization,
                         stats: Counters, now: string)
    requires WellFormed(conversation) && conversation.paymentRequirements.Some?
    ensures var out := PaymentStep(x402, conversation, authorization, conversation.paymentRequirements.value, stats, now);
            SavedWithReply(out, now) && Extends(conversation, out.saved.value)
  {
  }

  lemma CounterOfferStepSaves(x402: X402Handler, engine: NegotiationEngine, conversation: GardenNegotiation,
                              counter: real, stats: Counters, content: string, now: string)
    requires WellFormed(conversation)
    ensures var out := CounterOfferStep(x402, engine, Heard(conversation, content, now), counter, stats, now);
            SavedWithReply(out, now) && Extends(conversation, out.saved.value)
  {
  }

  lemma SelectionStepSaves(x402: X402Handler, engine: NegotiationEngine, conversation: GardenNegotiation,
                           stats: Counters, content: string, now: string)
    requires WellFormed(conversation)
    ensures var out := SelectionStep(x402, engine, Heard(conversation, content, now), stats, content, now);
            SavedWithReply(out, now) && Extends(conversation, out.saved.value)
  {
    var heard := Heard(conversation, content, now);
    assert conversation.messages <= heard.messages;
    if engine.ExtractTier(content).Some? && heard.proposalSent.Some? {
      var out := SelectionStep(x402, engine, heard, stats, content, now);
      assert out.saved.value.messages == heard.messages + [AgentSaid(out.reply.value, now)];
    }
  }

  /**
   * Every record a step saves ends with the reply sent and is well
   * formed; it carries the sender's stored record forward, or is a new
   * record for the sender when there was none.
   */
  lemma StepSaves(x402: X402Handler, engine: NegotiationEngine, address: Option<string>, store: Store,
                  stats: Counters, message: StreamMessage, now: string)
    requires StoreValid(store)
    ensures var out := Step(x402, engine, address, store, stats, message, now);
            && SavedWithReply(out, now)
            && (out.saved.Some? && Load(store, message.sender).Some? ==>
                  Extends(Load(store, message.sender).value, out.saved.value))
            && (out.saved.Some? && Load(store, message.sender).None? ==> out.saved.value.userAddress == message.sender)
  {
    if !Ignored(address, message) {
      var loaded := Load(store, message.sender);
      if TakesPaymentBranch(x402, store, message) {
        PaymentStepSaves(x402, loaded.value, x402.parseAuthorization(message.content).value, stats, now);
      } else if loaded.Some? {
        if engine.ExtractCounterOffer(message.content).Some? {
          CounterOfferStepSaves(x402, engine, loaded.value, engine.ExtractCounterOffer(message.content).value,
                                stats, message.content, now);
        } else {
          SelectionStepSaves(x402, engine, loaded.value, stats, message.content, now);
        }
      }
    }
  }

  /**
   * What a step adds to the transcript: in an ongoing negotiation the
   * user's text and then the reply; for a payment only the reply; and a
   * new negotiation starts with exactly the two.
   */
  lemma TranscriptGrows(x402: X402Handler, engine: NegotiationEngine, address: Option<string>, store: Store,
                        stats: Counters, message: StreamMessage, now: string)
    requires StoreValid(store)
    ensures var out := Step(x402, engine, address, store, stats, message, now);
            var loaded := Load(store, message.sender);
            out.saved.Some? ==>
              && (TakesPaymentBranch(x402, store, message) ==>
                    out.saved.value.messages == loaded.value.messages + [AgentSaid(out.reply.value, now)])
              && (!TakesPaymentBranch(x402, store, message) && loaded.Some? ==>
                    out.saved.value.messages
                    == loaded.value.messages + [UserSaid(message.content, now), AgentSaid(out.reply.value, now)])
              && (loaded.None? ==>
                    out.saved.value.messages == [UserSaid(message.content, now), AgentSaid(out.reply.value, now)])
  {
    if !Ignored(address, message) {
      var loaded := Load(store, message.sender);
      if !TakesPaymentBranch(x402, store, message) && loaded.Some? {
        OngoingTranscript(x402, engine, loaded.value, stats, message, now);
      }
    }
  }

  /** In an ongoing negotiation the user's text is recorded before the reply. */
  lemma OngoingTranscript(x402: X402Handler, engine: NegotiationEngine, conversation: GardenNegotiation,
                          stats: Counters, message: StreamMessage, now: string)
    requires WellFormed(conversation)
    ensures var out := OngoingStep(x402, engine, conversation, stats, message, now);
            out.saved.Some? && out.reply.Some?
            && out.saved.value.messages
               == conversation.messages + [UserSaid(message.content, now), AgentSaid(out.reply.value, now)]
  {
    var heard := Heard(conversation, message.content, now);
    var counter := engine.ExtractCounterOffer(message.content);
    var out := OngoingStep(x402, engine, conversation, stats, message, now);
    if counter.Some? {
      CounterOfferAppendsReply(x402, engine, heard, counter.value, stats, now);
      assert out == CounterOfferStep(x402, engine, heard, counter.value, stats, now);
    } else {
      SelectionAppendsReply(x402, engine, heard, stats, message.content, now);
      assert out == SelectionStep(x402, engine, heard, stats, message.content, now);
    }
    assert heard.messages + [AgentSaid(out.reply.value, now)]
           == conversation.messages + [UserSaid(message.content, now), AgentSaid(out.reply.value, now)];
  }

  lemma CounterOfferAppendsReply(x402: X402Handler, engine: NegotiationEngine, heard: GardenNegotiation,
                                 counter: real, stats: Counters, now: string)
    ensures var out := CounterOfferStep(x402, engine, heard, counter, stats, now);
            out.saved.Some? && out.reply.Some?
            && out.saved.value.messages == heard.messages + [AgentSaid(out.reply.value, now)]
  {
  }

  lemma SelectionAppendsReply(x402: X402Handler, engine: NegotiationEngine, heard: GardenNegotiation,
                              stats: Counters, content: string, now: string)
    requires Consistent(heard)
    ensures var out := SelectionStep(x402, engine, heard, stats, content, now);
            out.saved.Some? && out.reply.Some?
            && out.saved.value.messages == heard.messages + [AgentSaid(out.reply.value, now)]
  {
  }

  /** Every record saved ends with the reply sent, and the store stays valid. */
  lemma SavedEndsWithReply(x402: X402Handler, engine: NegotiationEngine, address: Option<string>, store: Store,
                           stats: Counters, message: StreamMessage, now: string)
    requires StoreValid(store)
    ensures var out := Step(x402, engine, address, store, stats, message, now);
            && (out.saved.Some? ==> var ms := out.saved.value.messages;
                                    ms != [] && ms[|ms| - 1] == AgentSaid(out.reply.value, now))
            && StoreValid(StoreAfter(store, out))
  {
    var out := Step(x402, engine, address, store, stats, message, now);
    StepSaves(x402, engine, address, store, stats, message, now);
    if out.saved.Some? {
      SaveKeepsStoreValid(store, out.saved.value);
    }
  }

  /**
   * A step keeps the schema's address constraint: a record saved for a
   * message from a valid address, over a store whose records all satisfy
   * the schema, satisfies it too.
   */
  lemma StepKeepsSchema(x402: X402Handler, engine: NegotiationEngine, address: Option<string>, store: Store,
                        stats: Counters, message: StreamMessage, now: string)
    requires StoreValid(store) && ValidStreamMessage(message)
    requires forall k :: k in store ==> ValidGardenNegotiation(store[k])
    ensures var out := Step(x402, engine, address, store, stats, message, now);
            out.saved.Some? ==> ValidGardenNegotiation(out.saved.value)
  {
    StepSaves(x402, engine, address, store, stats, message, now);
    var loaded := Load(store, message.sender);
    if loaded.Some? {
      assert loaded.value == store[GardenConversationKey(message.sender)];
    }
  }

  lemma SaveKeepsStoreValid(store: Store, n: GardenNegotiation)
    requires StoreValid(store) && WellFormed(n)
    ensures StoreValid(Save(store, n))
  {
    var after := Save(store, n);
    forall k | k in after ensures WellFormed(after[k]) {
      if k != GardenConversationKey(n.userAddress) {
        assert after[k] == store[k];
      }
    }
  }

  /** A first message without support intent is declined, and nothing is stored or counted. */
  lemma DeclineWithoutIntent(x402: X402Handler, engine: NegotiationEngine, address: Option<string>, store: Store,
                             stats: Counters, message: StreamMessage, now: string)
    requires StoreValid(store) && !Ignored(address, message)
    requires Load(store, message.sender).None? && !engine.IsSupportIntent(message.content)
    ensures Step(x402, engine, address, store, stats, message, now) == Outcome(None, Some(NegotiationOnly), stats)
  {
  }

  /**
   * A first message with support intent opens a negotiation: the
   * proposal is sent and recorded, nothing is accepted yet, the
   * transcript is the message and the proposal, and one more negotiation
   * is active.
   */
  lemma OpenOnIntent(x402: X402Handler, engine: NegotiationEngine, address: Option<string>, store: Store,
                     stats: Counters, message: StreamMessage, now: string)
    requires StoreValid(store) && !Ignored(address, message)
    requires Load(store, message.sender).None? && engine.IsSupportIntent(message.content)
    ensures var out := Step(x402, engine, address, store, stats, message, now);
            && out.reply == Some(ProposalOffer(engine.CreateProposal()))
            && out.saved.Some?
            && out.saved.value.proposalSent == Some(engine.CreateProposal())
            && !out.saved.value.accepted && out.saved.value.paymentRequirements.None?
            && out.saved.value.messages == [UserSaid(message.content, now), AgentSaid(ProposalOffer(engine.CreateProposal()), now)]
            && out.stats == stats.(active := stats.active + 1)
            && Load(StoreAfter(store, out), message.sender) == out.saved
  {
    var out := Step(x402, engine, address, store, stats, message, now);
    SaveThenLoad(store, out.saved.value, message.sender);
  }

  /**
   * In an ongoing negotiation a number is read as a counter-offer before
   * any tier word is looked at: it is recorded, counts as a round, and is
   * accepted exactly when it reaches the flexible floor. A rejected offer
   * leaves `accepted` as it was.
   */
  lemma CounterOfferTakesPrecedence(x402: X402Handler, engine: NegotiationEngine, address: Option<string>,
                                    store: Store, stats: Counters, message: StreamMessage, now: string)
    requires StoreValid(store) && !Ignored(address, message)
    requires Load(store, message.sender).Some? && !TakesPaymentBranch(x402, store, message)
    requires engine.ExtractCounterOffer(message.content).Some?
    requires 0.0 <= engine.flexibility && 0.0 <= engine.minimum.amountUsdc
    ensures var counter := engine.ExtractCounterOffer(message.content).value;
            var before := Load(store, message.sender).value;
            var out := Step(x402, engine, address, store, stats, message, now);
            && out.stats == stats.(rounds := stats.rounds + 1)
            && out.saved.Some? && out.saved.value.counterOffer == Some(counter)
            && (out.saved.value.accepted <==> before.accepted || counter >= engine.GetMinimumAcceptable())
            && (out.reply.value.CounterOfferAccepted? <==> counter >= engine.GetMinimumAcceptable())
            && (out.reply.value.CounterOfferRejected? <==> counter < engine.GetMinimumAcceptable())
  {
    AcceptedIffAtLeastFloor(engine, engine.ExtractCounterOffer(message.content).value);
  }

  /**
   * "tier 2" names the standard tier, but it holds a number, so in an
   * ongoing negotiation with the default engine it is read as an offer of
   * 2 USDC and rejected below the floor of 4.
   */
  lemma TierTwoReadAsCounterOffer(x402: X402Handler, address: Option<string>, store: Store,
                                  stats: Counters, message: StreamMessage, now: string)
    requires StoreValid(store) && !Ignored(address, message) && message.content == "tier 2"
    requires Load(store, message.sender).Some? && !TakesPaymentBranch(x402, store, message)
    ensures var out := Step(x402, CreateNegotiationEngine(), address, store, stats, message, now);
            && out.reply == Some(CounterOfferRejected(Unacceptable(2.0, 5.0, 4.0), 4.0))
            && out.stats.rounds == stats.rounds + 1
            && out.saved.value.paymentRequirements == Load(store, message.sender).value.paymentRequirements
  {
    Utils.TierTwoIsACounterOffer();
    DefaultVerdicts(2.0);
    DefaultMinimumAcceptable();
  }

  /**
   * Without a counter-offer, a tier chosen after a proposal is accepted at
   * the proposal's price for that tier, with payment requirements for it.
   */
  lemma TierSelectionCharges(x402: X402Handler, engine: NegotiationEngine, address: Option<string>,
                             store: Store, stats: Counters, message: StreamMessage, now: string)
    requires StoreValid(store) && !Ignored(address, message)
    requires Load(store, message.sender).Some? && !TakesPaymentBranch(x402, store, message)
    requires Load(store, message.sender).value.proposalSent.Some?
    requires engine.ExtractCounterOffer(message.content).None? && engine.ExtractTier(message.content).Some?
    ensures var i := engine.ExtractTier(message.content).value;
            var price := Load(store, message.sender).value.proposalSent.value.priceOptions[i];
            var requirements := x402.createPaymentRequirements(price, TierDescription(TierNames[i]));
            var out := Step(x402, engine, address, store, stats, message, now);
            && out.reply == Some(TierAccepted(TierNames[i], price, requirements))
            && out.saved.value.accepted && out.saved.value.paymentRequirements == Some(requirements)
            && out.stats == stats
  {
  }

  /**
   * A verified payment completes a negotiation: one more completed, one
   * fewer active, and the required amount added to revenue. It only
   * happens on an accepted negotiation, and nothing else changes the
   * completed count or the revenue.
   */
  lemma PaymentCounts(x402: X402Handler, engine: NegotiationEngine, address: Option<string>, store: Store,
                      stats: Counters, message: StreamMessage, now: string)
    requires StoreValid(store)
    ensures var out := Step(x402, engine, address, store, stats, message, now);
            var paid := !Ignored(address, message) && TakesPaymentBranch(x402, store, message)
                        && x402.verifyAuthorization(x402.parseAuthorization(message.content).value,
                                                    Load(store, message.sender).value.paymentRequirements.value).valid;
            && (paid ==> Load(store, message.sender).value.accepted
                         && out.stats == stats.(completed := stats.completed + 1, active := stats.active - 1,
                              revenueUsdc := stats.revenueUsdc + Load(store, message.sender).value.paymentRequirements.value.maxAmountRequired)
                         && out.reply == Some(PaymentVerified))
            && (!paid ==> out.stats.completed == stats.completed && out.stats.revenueUsdc == stats.revenueUsdc)
  {
  }

  /**
   * Nothing guards against a repeated payment: the same authorization
   * sent twice completes the negotiation twice and counts its amount
   * twice.
   */
  lemma PaymentRepeats(x402: X402Handler, engine: NegotiationEngine, address: Option<string>, store: Store,
                       stats: Counters, message: StreamMessage, now: string)
    requires StoreValid(store) && !Ignored(address, message) && TakesPaymentBranch(x402, store, message)
    requires x402.verifyAuthorization(x402.parseAuthorization(message.content).value,
                                      Load(store, message.sender).value.paymentRequirements.value).valid
    ensures var first := Step(x402, engine, address, store, stats, message, now);
            var store1 := StoreAfter(store, first);
            var amount := Load(store, message.sender).value.paymentRequirements.value.maxAmountRequired;
            && StoreValid(store1)
            && Step(x402, engine, address, store1, first.stats, message, now).stats
               == stats.(completed := stats.completed + 2, active := stats.active - 2,
                         revenueUsdc := stats.revenueUsdc + amount + amount)
  {
    var first := Step(x402, engine, address, store, stats, message, now);
    var n := Load(store, message.sender).value;
    SavedEndsWithReply(x402, engine, address, store, stats, message, now);
    assert EqualIgnoringCase(message.sender, n.userAddress) by {
      LowerEqualIffEqualIgnoringCase(n.userAddress, message.sender);
      LowerEqualIffEqualIgnoringCase(message.sender, n.userAddress);
    }
    SaveThenLoad(store, first.saved.value, message.sender);
  }

  /**
   * A stored negotiation survives every message: it is never dropped,
   * `accepted` and `paymentAuthorized` are never reset, its proposal,
   * conversation id and creation time stay, and its transcript only grows.
   */
  lemma StepKeepsRecords(x402: X402Handler, engine: NegotiationEngine, address: Option<string>, store: Store,
                         stats: Counters, message: StreamMessage, now: string, userAddress: string)
    requires StoreValid(store) && Load(store, userAddress).Some?
    ensures var after := Load(StoreAfter(store, Step(x402, engine, address, store, stats, message, now)), userAddress);
            after.Some? && Extends(Load(store, userAddress).value, after.value)
  {
    var out := Step(x402, engine, address, store, stats, message, now);
    StepSaves(x402, engine, address, store, stats, message, now);
    if out.saved.Some? {
      var n := out.saved.value;
      if EqualIgnoringCase(userAddress, n.userAddress) {
        SaveThenLoad(store, n, userAddress);
        SameKeyIffEqualIgnoringCase(userAddress, n.userAddress);
        if Load(store, message.sender).None? {
          SameKeyIffEqualIgnoringCase(message.sender, n.userAddress);
          assert false;
        }
        SameRecordForSameKey(store, message.sender, userAddress, n);
      } else {
        SaveLeavesOthers(store, n, userAddress);
      }
    }
  }

  /**
   * A record carried forward from the sender's stored record, if it has
   * the same key as `userAddress`, was carried forward from the record
   * stored for `userAddress`.
   */
  lemma SameRecordForSameKey(store: Store, sender: string, userAddress: string, n: GardenNegotiation)
    requires WellKeyed(store) && Load(store, userAddress).Some?
    requires Load(store, sender).Some? && n.userAddress == Load(store, sender).value.userAddress
    requires EqualIgnoringCase(userAddress, n.userAddress)
    ensures Load(store, sender) == Load(store, userAddress)
  {
    SameKeyIffEqualIgnoringCase(userAddress, n.userAddress);
  }

  // ---------------------------------------------------------------------
  // The agent
  // ---------------------------------------------------------------------

  class GardenAgent {
    const x402: X402Handler
    const engine: NegotiationEngine
    const memory: GardenMemory
    var address: Option<string>
    var outbox: seq<Outgoing>
    var stats: Counters

    /** Every stored record is well formed. */
    predicate Valid()
      reads this, memory
    {
      memory.Valid() && StoreValid(memory.store)
    }

    /** The agent as `initialize` leaves it, with an empty store and zero counters. */
    constructor(address: Option<string>, x402: X402Handler)
      ensures Valid()
      ensures this.address == address && this.x402 == x402 && engine == CreateNegotiationEngine()
      ensures fresh(memory) && memory.store == map[] && outbox == [] && stats == Counters(0, 0, 0.0, 0)
    {
      this.address := address;
      this.x402 := x402;
      engine := CreateNegotiationEngine();
      memory := new GardenMemory(None);
      outbox := [];
      stats := Counters(0, 0, 0.0, 0);
    }

    /** The state `outcome` describes, reached from `store0` and `outbox0`. */
    ghost predicate Reached(outcome: Outcome, recipient: string, store0: Store, outbox0: seq<Outgoing>)
      reads this, memory
    {
      && memory.store == StoreAfter(store0, outcome)
      && outbox == OutboxAfter(outbox0, recipient, outcome)
      && stats == outcome.stats
    }

    /** `handleMessage`: the store, outbox and counters end as `Step` says. */
    method HandleMessage(message: StreamMessage, now: string)
      requires Valid()
      modifies this, memory
      ensures Valid() && address == old(address)
      ensures Reached(Step(x402, engine, address, old(memory.store), old(stats), message, now),
                      message.sender, old(memory.store), old(outbox))
    {
      if address.None? {
        return;
      }
      LowerEqualIffEqualIgnoringCase(message.sender, address.value);
      if Lower(message.sender) == Lower(address.value) {
        return;
      }
      var conversation := memory.LoadConversation(message.sender);
      var parsedAuth := x402.parseAuthorization(message.content);
      if parsedAuth.Some? && conversation.Some? && conversation.value.paymentRequirements.Some? {
        assert WellFormed(conversation.value);
        HandlePayment(message, conversation.value, parsedAuth.value, now);
        return;
      }
      if conversation.None? {
        HandleOpening(message, now);
        return;
      }
      HandleOngoing(message, conversation.value, now);
    }

    /** Lines 73-122. */
    method HandlePayment(message: StreamMessage, conversation: GardenNegotiation,
                         authorization: PaymentAuthorization, now: string)
      requires Valid() && WellFormed(conversation) && conversation.paymentRequirements.Some?
      modifies this, memory
      ensures Valid() && address == old(address)
      ensures Reached(PaymentStep(x402, conversation, authorization, conversation.paymentRequirements.value,
                                  old(stats), now), message.sender, old(memory.store), old(outbox))
    {
      var requirements := conversation.paymentRequirements.value;
      var verification := x402.verifyAuthorization(authorization, requirements);
      var conv := conversation;
      if verification.valid {
        conv := conv.(paymentAuthorized := true);
        conv := conv.(accepted := true);
        conv := conv.(messages := conv.messages + [AgentSaid(PaymentVerified, now)]);
        SaveConversation(conv);
        Send(message.sender, PaymentVerified);
        stats := stats.(completed := stats.completed + 1);
        stats := stats.(active := stats.active - 1);
        stats := stats.(revenueUsdc := stats.revenueUsdc + requirements.maxAmountRequired);
      } else {
        var reply := AuthorizationRejected(verification.error);
        conv := conv.(messages := conv.messages + [AgentSaid(reply, now)]);
        SaveConversation(conv);
        Send(message.sender, reply);
      }
    }

    /** Lines 124-161. */
    method HandleOpening(message: StreamMessage, now: string)
      requires Valid()
      modifies this, memory
      ensures Valid() && address == old(address)
      ensures Reached(OpeningStep(engine, message, old(stats), now), message.sender, old(memory.store), old(outbox))
    {
      if engine.IsSupportIntent(message.content) {
        var proposal := engine.CreateProposal();
        var conv := GardenNegotiation(
          message.conversationId, message.sender, Some(proposal), None, false, false, None,
          [UserSaid(message.content, now)], now, now, false, None);
        conv := conv.(messages := conv.messages + [AgentSaid(ProposalOffer(proposal), now)]);
        SaveConversation(conv);
        Send(message.sender, ProposalOffer(proposal));
        stats := stats.(active := stats.active + 1);
      } else {
        Send(message.sender, NegotiationOnly);
      }
    }

    /** Lines 163-276. */
    method HandleOngoing(message: StreamMessage, conversation: GardenNegotiation, now: string)
      requires Valid() && WellFormed(conversation)
      requires Load(memory.store, message.sender) == Some(conversation)
      modifies this, memory
      ensures Valid() && address == old(address)
      ensures Reached(OngoingStep(x402, engine, conversation, old(stats), message, now),
                      message.sender, old(memory.store), old(outbox))
    {
      var conv := conversation;
      conv := conv.(messages := conv.messages + [UserSaid(message.content, now)]);
      conv := conv.(updatedAt := now);
      var counter := engine.ExtractCounterOffer(message.content);
      if counter.Some? {
        HandleCounterOffer(message, conv, counter.value, now);
      } else {
        HandleSelection(message, conv, now);
      }
    }

    /** Lines 171-230. */
    method HandleCounterOffer(message: StreamMessage, heard: GardenNegotiation, counter: real, now: string)
      requires Valid() && Consistent(heard)
      modifies this, memory
      ensures Valid() && address == old(address)
      ensures Reached(CounterOfferStep(x402, engine, heard, counter, old(stats), now),
                      message.sender, old(memory.store), old(outbox))
    {
      var conv := heard.(counterOffer := Some(counter));
      stats := stats.(rounds := stats.rounds + 1);
      var evaluation := engine.EvaluateOffer(counter);
      if evaluation.accepted {
        var requirements := x402.createPaymentRequirements(counter, CounterOfferDescription);
        conv := conv.(paymentRequirements := Some(requirements));
        var reply := CounterOfferAccepted(evaluation.verdict, counter, requirements);
        conv := conv.(accepted := true);
        conv := conv.(messages := conv.messages + [AgentSaid(reply, now)]);
        SaveConversation(conv);
        Send(message.sender, reply);
      } else {
        var reply := CounterOfferRejected(evaluation.verdict, engine.GetMinimumAcceptable());
        conv := conv.(messages := conv.messages + [AgentSaid(reply, now)]);
        SaveConversation(conv);
        Send(message.sender, reply);
      }
    }

    /** Lines 232-276. */
    method HandleSelection(message: StreamMessage, heard: GardenNegotiation, now: string)
      requires Valid() && Consistent(heard)
      modifies this, memory
      ensures Valid() && address == old(address)
      ensures Reached(SelectionStep(x402, engine, heard, old(stats), message.content, now),
                      message.sender, old(memory.store), old(outbox))
    {
      var conv := heard;
      var reply: Reply;
      var tierIdx := engine.ExtractTier(message.content);
      if tierIdx.Some? && conv.proposalSent.Some? {
        var price := conv.proposalSent.value.priceOptions[tierIdx.value];
        var requirements := x402.createPaymentRequirements(price, TierDescription(TierNames[tierIdx.value]));
        conv := conv.(paymentRequirements := Some(requirements));
        reply := TierAccepted(TierNames[tierIdx.value], price, requirements);
        conv := conv.(accepted := true);
      } else {
        reply := NegotiationPrompt;
      }
      conv := conv.(messages := conv.messages + [AgentSaid(reply, now)]);
      SaveConversation(conv);
      Send(message.sender, reply);
    }

    /** `memory.saveConversation`, for a well-formed record. */
    method SaveConversation(conversation: GardenNegotiation)
      requires Valid() && WellFormed(conversation)
      modifies memory
      ensures Valid() && memory.store == Save(old(memory.store), conversation)
    {
      memory.SaveConversation(conversation);
    }

    /** `client.sendMessage`. */
    method Send(recipient: string, reply: Reply)
      modifies this
      ensures outbox == old(outbox) + [Outgoing(recipient, reply)]
      ensures address == old(address) && stats == old(stats)
    {
      outbox := outbox + [Outgoing(recipient, reply)];
    }

    /** `getStats`: the counters, with rounds averaged over completed negotiations (0 before any). */
    function GetStats(): (s: GardenStats)
      reads this
      ensures s.activeNegotiations == stats.active && s.completedNegotiations == stats.completed
      ensures s.totalRevenueUsdc == stats.revenueUsdc
      ensures stats.completed > 0 ==> s.avgNegotiationRounds * stats.completed as real == stats.rounds as real
      ensures stats.completed <= 0 ==> s.avgNegotiationRounds == 0.0
    {
      var avgRounds := if stats.completed > 0 then stats.rounds as real / stats.completed as real else 0.0;
      GardenStats(address, stats.active, stats.completed, stats.revenueUsdc, avgRounds)
    }
  }
}
