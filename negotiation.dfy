/**
 * The garden agent's negotiation policy (apps/agents/src/garden/negotiation.ts):
 * a fixed three-tier proposal, a floor below the cheapest tier, the verdict
 * on a counter-offer, and the classification of inbound text.
 *
 * The engine's fields are set once by its constructor and never change, so
 * it is a value here.
 */
module Negotiation {
  import opened Wrappers
  import opened Text
  import opened Types
  import opened Constants
  import Utils

  datatype NegotiationEngine = NegotiationEngine(
    minimum: PriceTier,
    standard: PriceTier,
    premium: PriceTier,
    flexibility: real,
    maxRounds: int)
  {
    /** The tiers in the order the proposal lists them. */
    function Tiers(): seq<PriceTier> {
      [minimum, standard, premium]
    }

    /** `createProposal`: the standard tier as the base price, every tier as an option. */
    function CreateProposal(): (p: GardenProposal)
      ensures |p.priceOptions| == |Tiers()|
      ensures p.basePriceUsdc == p.priceOptions[1] == standard.amountUsdc
      ensures forall i :: 0 <= i < |Tiers()| ==> p.priceOptions[i] == Tiers()[i].amountUsdc
    {
      GardenProposal(
        standard.amountUsdc,
        [minimum.amountUsdc, standard.amountUsdc, premium.amountUsdc],
        "Contribution to support ongoing work")
    }

    /** `getMinimumAcceptable`: the cheapest tier less the flexible fraction. */
    function GetMinimumAcceptable(): (floor: real)
      ensures 0.0 <= flexibility && 0.0 <= minimum.amountUsdc ==> floor <= minimum.amountUsdc
    {
      minimum.amountUsdc * (1.0 - flexibility)
    }

    /**
     * `evaluateOffer`: accept at or above the cheapest tier, accept within
     * the flexible range, and otherwise reject naming the minimum and floor.
     */
    function EvaluateOffer(amount: real): (e: Evaluation)
      ensures e.verdict.amount == amount
      ensures e.accepted <==> !e.verdict.Unacceptable?
      ensures e.verdict.Acceptable? <==> amount >= minimum.amountUsdc
      ensures e.verdict.AcceptableInFlexibleRange? <==> GetMinimumAcceptable() <= amount < minimum.amountUsdc
      ensures e.verdict.Unacceptable? ==> e.verdict.minimum == minimum.amountUsdc
                                          && e.verdict.flexibleFloor == GetMinimumAcceptable()
    {
      var floor := GetMinimumAcceptable();
      if amount >= minimum.amountUsdc then Evaluation(true, Acceptable(amount))
      else if amount >= floor then Evaluation(true, AcceptableInFlexibleRange(amount))
      else Evaluation(false, Unacceptable(amount, minimum.amountUsdc, floor))
    }

    /** `isSupportIntent`: some support pattern matches the lower-cased text. */
    predicate IsSupportIntent(content: string) {
      AnySupportPattern(SupportPatterns, Lower(content))
    }

    /** `extractTier`: the shared tier-selection extractor. */
    function ExtractTier(content: string): (r: Option<nat>)
      ensures r == Utils.ExtractTierSelection(content)
      ensures r.Some? ==> r.value < |Tiers()|
    {
      Utils.ExtractTierSelection(content)
    }

    /** `extractCounterOffer`: the shared counter-offer extractor. */
    function ExtractCounterOffer(content: string): (r: Option<real>)
      ensures r == Utils.ExtractCounterOffer(content)
      ensures r.Some? ==> 0.0 < r.value < 10000.0
    {
      Utils.ExtractCounterOffer(content)
    }
  }

  /** What `evaluateOffer` returns; the verdict stands for its message. */
  datatype Evaluation = Evaluation(accepted: bool, verdict: OfferVerdict)

  /** The constructor: tiers, flexibility and round limit from the configuration. */
  function CreateNegotiationEngine(): (e: NegotiationEngine)
    ensures e.Tiers()[0].amountUsdc < e.Tiers()[1].amountUsdc < e.Tiers()[2].amountUsdc
    ensures 0.0 <= e.flexibility < 1.0
  {
    NegotiationEngine(
      PriceTier("minimum", MinTierUsdc, "Basic support"),
      PriceTier("standard", StandardTierUsdc, "Recommended support"),
      PriceTier("premium", PremiumTierUsdc, "Maximum support with benefits"),
      Flexibility,
      MaxNegotiationRounds)
  }

  /** `patterns.some(p => p.test(s))`. */
  function AnySupportPattern(patterns: seq<SupportPattern>, s: string): (b: bool)
    ensures b <==> exists i :: 0 <= i < |patterns| && SupportPatternTest(patterns[i], s)
  {
    if patterns == [] then false
    else SupportPatternTest(patterns[0], s) || AnySupportPattern(patterns[1..], s)
  }

  // ---------------------------------------------------------------------
  // Properties of the configured engine
  // ---------------------------------------------------------------------

  /** The proposal offers 5, 25 and 100 USDC and recommends 25. */
  lemma DefaultProposal()
    ensures CreateNegotiationEngine().CreateProposal().priceOptions == [5.0, 25.0, 100.0]
    ensures CreateNegotiationEngine().CreateProposal().basePriceUsdc == 25.0
  {
  }

  /** The floor is 4 USDC, below the 5 USDC tier. */
  lemma DefaultMinimumAcceptable()
    ensures CreateNegotiationEngine().GetMinimumAcceptable() == 4.0
    ensures CreateNegotiationEngine().GetMinimumAcceptable() <= CreateNegotiationEngine().minimum.amountUsdc
  {
  }

  /**
   * An engine whose flexibility and cheapest tier are not negative accepts
   * exactly the offers at or above its floor; both boundaries are inclusive.
   */
  lemma AcceptedIffAtLeastFloor(e: NegotiationEngine, amount: real)
    requires 0.0 <= e.flexibility && 0.0 <= e.minimum.amountUsdc
    ensures e.EvaluateOffer(amount).accepted <==> amount >= e.GetMinimumAcceptable()
    ensures e.EvaluateOffer(e.GetMinimumAcceptable()).accepted
    ensures e.EvaluateOffer(e.minimum.amountUsdc).verdict.Acceptable?
  {
  }

  /** The configured thresholds: 5 and above, 4 up to 5, and below 4. */
  lemma DefaultVerdicts(amount: real)
    ensures amount >= 5.0 ==> CreateNegotiationEngine().EvaluateOffer(amount).verdict == Acceptable(amount)
    ensures 4.0 <= amount < 5.0 ==>
              CreateNegotiationEngine().EvaluateOffer(amount).verdict == AcceptableInFlexibleRange(amount)
    ensures amount < 4.0 ==>
              CreateNegotiationEngine().EvaluateOffer(amount).verdict == Unacceptable(amount, 5.0, 4.0)
  {
    DefaultMinimumAcceptable();
  }

  /** The round limit is stored but no operation reads it. */
  lemma MaxRoundsUnread(e: NegotiationEngine, rounds: int, amount: real, content: string)
    ensures e.(maxRounds := rounds).EvaluateOffer(amount) == e.EvaluateOffer(amount)
    ensures e.(maxRounds := rounds).CreateProposal() == e.CreateProposal()
    ensures e.(maxRounds := rounds).IsSupportIntent(content) == e.IsSupportIntent(content)
  {
  }

  /** Support intent holds exactly when some configured pattern matches the lower-cased text. */
  lemma SupportIntentIffSomePattern(e: NegotiationEngine, content: string)
    ensures e.IsSupportIntent(content) <==>
              exists i :: 0 <= i < |SupportPatterns| && SupportPatternTest(SupportPatterns[i], Lower(content))
  {
  }

  /** Text mentioning a refund is read as support intent, through `/fund/`. */
  lemma RefundIsSupportIntent(e: NegotiationEngine)
    ensures e.IsSupportIntent("Refund")
  {
    assert Lower("Refund") == "refund";
    RefundMatchesFund();
  }

  // ---------------------------------------------------------------------
  // getNetworkName
  // ---------------------------------------------------------------------

  /** The chain-id table, falling back to `Chain <id>`. */
  function NetworkName(chainId: int): (name: string)
    ensures chainId == 1 ==> name == "Ethereum Mainnet"
    ensures chainId == 8453 ==> name == "Base"
    ensures chainId == 84532 ==> name == "Base Sepolia"
    ensures chainId != 1 && chainId != 8453 && chainId != 84532 ==>
              |name| > 6 && name[..6] == "Chain " && name[6..] == IntToString(chainId)
  {
    if chainId == 1 then "Ethereum Mainnet"
    else if chainId == 8453 then "Base"
    else if chainId == 84532 then "Base Sepolia"
    else "Chain " + IntToString(chainId)
  }

  /** Different chain ids get different names. */
  lemma NetworkNameInjective(a: int, b: int)
    ensures NetworkName(a) == NetworkName(b) ==> a == b
  {
    var known := {1, 8453, 84532};
    assert a in known <==> NetworkName(a)[0] != 'C';
    assert b in known <==> NetworkName(b)[0] != 'C';
    if a !in known && b !in known {
      IntToStringInjective(a, b);
    }
  }
}
