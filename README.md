# yield-garden agents, modelled in Dafny

This project models the bookkeeping and negotiation core of the yield-garden
agents, which are two chat agents that trade in USDC:

- **The farm agent** answers every "make me …" command at once with a
  placeholder. It keeps request counters and a log of its last hundred
  exchanges.
- **The garden agent** engages only after a counterparty shows support intent.
  - It sends a fixed three-tier proposal (5, 25 and 100 USDC).
  - It reads counter-offers before tier selections.
  - It accepts any offer that reaches the minimum tier less 20 % flexibility
    (4 USDC).
  - It charges through x402 payment requirements.
  - It keeps one negotiation record per counterparty in a store keyed by the
    lower-cased address.

Around these sit the shared text extractors and validators, the configuration
constants, the payment-agreement tracker, and the API's bounded message buffer
with its `/farm/stream` selection.

One module per source file:

| module | models |
|---|---|
| `Text` | JavaScript string operations: `toLowerCase` (ASCII), `trim`, `\s`, digit runs, number rendering, leftmost-match search |
| `Sequences` | `array.slice(-n)` windows |
| `Types` | `packages/shared/src/types.ts` records and enums |
| `Utils` | `packages/shared/src/utils.ts` |
| `Constants` | `packages/shared/src/constants.ts` |
| `Negotiation` | `apps/agents/src/garden/negotiation.ts` |
| `Memory` | `apps/agents/src/garden/memory.ts`, with the store as a map |
| `Payments` | `apps/agents/src/shared/x402.ts` (`PaymentTracker`) |
| `FarmAgent` | `apps/agents/src/farm/agent.ts` |
| `FarmRoutes` | `apps/api/src/routes/farm.ts` (buffer and `/stream`) |
| `GardenAgent` | `apps/agents/src/garden/agent.ts` |

## How the garden handler is modelled

`GardenAgent.Step` states, as a pure function, what one inbound message does:

- the negotiation record saved, if any;
- the reply sent, if any;
- the new counters.

The class `GardenAgent.GardenAgent` performs the same updates one at a time,
as the source does: it mutates the record, saves it through its
`Memory.GardenMemory`, appends to the outbox and bumps its counters.
`HandleMessage` is proved to end in exactly the state `Step` describes. The
lemmas about `Step` then say what the handler guarantees:

- every message gets exactly one reply unless it is ignored;
- every saved record ends with the reply sent;
- a stored record is never dropped, and `accepted` and `paymentAuthorized` are
  never reset on it;
- counter-offers take precedence over tier words, so "tier 2" is read as an
  offer of 2 USDC;
- a verified payment adds to the revenue, and a repeated payment is counted
  twice.

The x402 SDK is not part of the repository. Its three calls
(`parseAuthorization`, `verifyAuthorization`, `createPaymentRequirements`) are
arbitrary functions fixed when the agent is created
(`GardenAgent.X402Handler`).

Replies are kept abstract (`Types.Reply`). Each reply carries the values its
text is built from, for example the verdict, the amount and the payment
requirements.

## Where the code departs from its schema and intent

The model follows the code in each of these cases except the last, the
support-intent test, where it models the evident intent:

- **Garden statistics field name.** The statistics schema names its revenue
  field `totalCommittedUsdc` (packages/shared/src/types.ts:120). `getStats`
  returns `totalRevenueUsdc` (apps/agents/src/garden/agent.ts:292). The model
  uses `totalRevenueUsdc`.
- **Payment branch.** The garden handler never calls the payment tracker. It
  pays through x402 authorizations against the `paymentRequirements` stored on
  the record. Those fields, and `paymentAuthorized`, are not in the
  negotiation schema; the model adds them to `Types.GardenNegotiation`.
- **Agreement status.** Agreement status is not monotone. `markCommitted` and
  `markWorkStarted` overwrite any prior status, and nothing ever sets
  `completed`.
- **Repeated payments.** Nothing guards against a repeated payment: the same
  authorization completes a negotiation, and adds its amount, every time
  (`GardenAgent.PaymentRepeats`).
- **Round limit.** `maxNegotiationRounds` is read into the engine and never
  used (`Negotiation.MaxRoundsUnread`).
- **Support-intent test.** In `isSupportIntent`, apps/agents/src/garden/negotiation.ts:110-111
  writes `some((pattern) = pattern.test(lowerContent))`: an assignment where
  the arrow of `some((pattern) => pattern.test(lowerContent))` is meant. As
  written, `pattern` is unbound where the argument is evaluated, so the file
  does not type-check, and a compiled copy throws a `ReferenceError` on every
  call; no negotiation would ever open. The model departs from the code here
  and uses the arrow (`Negotiation.NegotiationEngine.IsSupportIntent`),
  because every other part of the opening branch (agent.ts:124-161) and the
  thirteen configured patterns only make sense with it.

## Model

| member | source | states |
|---|---|---|
| Text.Lower | apps/agents/src/farm/agent.ts:39 | `toLowerCase` keeps the length and lower-cases each character (ASCII letters) |
| Text.Trim | apps/agents/src/farm/agent.ts:39 | `trim` removes only white space from both ends, and the result neither starts nor ends with white space |
| Text.IntToString | apps/api/src/routes/farm.ts:26 | The decimal text of an integer is never empty and starts with "-" exactly for a negative number; `parseInt` reads it back (`FarmRoutes.ParseIntRoundTrip`) |
| Text.Leftmost | packages/shared/src/utils.ts:46 | `match` without the g flag: the lowest position where the pattern matches, and nothing only when no position matches |
| Types.ExtractedSignatureIsValid | packages/shared/src/types.ts:140-141 | A signature extracted from a message satisfies the authorization schema's `^0x[a-fA-F0-9]{130}$` |
| Utils.FormatAddress | packages/shared/src/utils.ts:8-11 | An address shorter than 10 is returned as is; a longer one becomes its first 6 characters, "...", and its last 4 |
| Utils.FormatValidAddress | packages/shared/src/utils.ts:8-18 | A valid address abbreviates to 13 characters: "0x", four hex digits, "...", and the address's last four hex digits |
| Utils.IsValidAddress | packages/shared/src/utils.ts:16-18 | `^0x[a-fA-F0-9]{40}$`: exactly 42 characters, "0x", then hex digits |
| Utils.IsSignature | packages/shared/src/utils.ts:23-25 | `/0x[a-fA-F0-9]{130}/` matches somewhere in the text |
| Utils.ExtractSignature | packages/shared/src/utils.ts:23-33 | A signature is extracted exactly when `isSignature` holds; it is the leftmost "0x"+130-hex run, and it passes the schema's whole-string signature check |
| Utils.CounterOfferMatch | packages/shared/src/utils.ts:39-46 | `content.match(pattern)` takes the capture at the leftmost position where the pattern matches, and finds nothing only when no position matches |
| Utils.CounterOfferFrom | packages/shared/src/utils.ts:45-54 | The loop returns the first pattern's match that is in (0, 10000), and returns nothing when no pattern gives one |
| Utils.ExtractCounterOffer | packages/shared/src/utils.ts:38-55 | A result lies strictly between 0 and 10000, and there is one exactly when some pattern's match is in range |
| Utils.FirstPatternTakesFirstDigits | packages/shared/src/utils.ts:40 | The first pattern captures the first digit run in the text, with ".dd" when exactly two decimals follow |
| Utils.NoDigitsNoCounterOffer | packages/shared/src/utils.ts:38-55 | Text without a digit has no counter-offer |
| Utils.FirstDigitsAreTheCounterOffer | packages/shared/src/utils.ts:38-55 | When the first number in the text is in range, it is the counter-offer, whatever the other patterns say |
| Utils.TierTwoIsACounterOffer | packages/shared/src/utils.ts:38-68 | "tier 2" yields both the counter-offer 2 and the tier selection 1 |
| Utils.ExtractTierSelection | packages/shared/src/utils.ts:60-68 | The tests run in order on the lower-cased text: 0 exactly when it contains "min" or "tier" + spaces + "one"/"1"; otherwise 1 exactly when it contains "standard" or "tier" + "two"/"2"; otherwise 2 exactly when it contains "premium" or "tier" + "three"/"3"; otherwise nothing |
| Utils.MinWinsOverPremium | packages/shared/src/utils.ts:60-65 | Any text containing "min" in any case selects tier 0, even when it also names premium |
| Utils.Capitalized | packages/shared/src/utils.ts:77 | The first character is upper-cased and the rest is kept |
| Utils.GeneratePlaceholderResponse | packages/shared/src/utils.ts:73-81 | The template chosen is `length % 4`; the reply names the item, capitalised at the start for template 2 |
| Utils.TemplatesNameTheItem | packages/shared/src/utils.ts:74-79 | Each of the four templates holds the item at its fixed position |
| Constants.TiersAscend | packages/shared/src/constants.ts:62-66 | The tiers are strictly ascending and positive: 0 < 5 < 25 < 100 |
| Constants.FlexibilityIsAFraction | packages/shared/src/constants.ts:62-67 | The flexibility is in [0, 1), so the flexible floor is positive and at most the minimum tier |
| Constants.RefundMatchesFund | packages/shared/src/constants.ts:47-61 | Support patterns are unanchored substring tests: "refund" matches `/fund/` |
| Constants.ShortestCapture | packages/shared/src/constants.ts:40-42 | The lazy `(.+?)` ends at the first position after the start that is a stop character or the end, on one line |
| Constants.CommandAt | packages/shared/src/constants.ts:40-42 | A command pattern's capture at a position is never empty |
| Constants.CommandMatch | packages/shared/src/constants.ts:39-43 | A command pattern matches at its leftmost possible position, and fails only when no position matches |
| Constants.GardenConversationKey | packages/shared/src/constants.ts:74 | The key is "garden:conv:" followed by one character per character of the address |
| Constants.SameKeyIffEqualIgnoringCase | packages/shared/src/constants.ts:74 | Two addresses share a key exactly when they are equal ignoring case |
| Constants.KeySuffixIsLowerAddress | packages/shared/src/constants.ts:74 | The key minus its prefix is the lower-cased address |
| Negotiation.CreateNegotiationEngine | apps/agents/src/garden/negotiation.ts:26-37 | The engine's tiers ascend and its flexibility is in [0, 1) |
| Negotiation.NegotiationEngine.CreateProposal | apps/agents/src/garden/negotiation.ts:42-48 | One price option per tier, in tier order; the base price is the standard tier's |
| Negotiation.NegotiationEngine.GetMinimumAcceptable | apps/agents/src/garden/negotiation.ts:77-79 | The flexible floor never exceeds the minimum tier |
| Negotiation.NegotiationEngine.EvaluateOffer | apps/agents/src/garden/negotiation.ts:84-103 | Acceptable exactly from the minimum tier up; flexible exactly in [floor, minimum); otherwise rejected, citing minimum and floor; accepted exactly when not rejected |
| Negotiation.NegotiationEngine.ExtractTier | apps/agents/src/garden/negotiation.ts:118-120 | It is the shared tier extractor, and indexes a tier |
| Negotiation.NegotiationEngine.ExtractCounterOffer | apps/agents/src/garden/negotiation.ts:125-127 | It is the shared counter-offer extractor, and its result is in (0, 10000) |
| Negotiation.AnySupportPattern | apps/agents/src/garden/negotiation.ts:108-113 | `some(p => p.test(s))`: true exactly when some pattern matches |
| Negotiation.DefaultProposal | apps/agents/src/garden/negotiation.ts:42-48 | The default proposal offers [5, 25, 100] with base 25 |
| Negotiation.DefaultMinimumAcceptable | apps/agents/src/garden/negotiation.ts:77-79 | The default floor is 4 USDC |
| Negotiation.AcceptedIffAtLeastFloor | apps/agents/src/garden/negotiation.ts:84-103 | An offer is accepted exactly when it reaches the floor; the bounds are inclusive |
| Negotiation.DefaultVerdicts | apps/agents/src/garden/negotiation.ts:84-103 | With the defaults: from 5 acceptable, from 4 below 5 flexible, below 4 rejected with 5 and 4 |
| Negotiation.MaxRoundsUnread | apps/agents/src/garden/negotiation.ts:24-37 | The round limit changes no decision of the engine |
| Negotiation.NegotiationEngine.IsSupportIntent | apps/agents/src/garden/negotiation.ts:108-113 | Some configured support pattern matches the lower-cased text (the intended arrow, not the `=` as written) |
| Negotiation.SupportIntentIffSomePattern | apps/agents/src/garden/negotiation.ts:108-113 | Support intent exactly when some support pattern matches the lower-cased text |
| Negotiation.RefundIsSupportIntent | apps/agents/src/garden/negotiation.ts:108-113 | "Refund" counts as support intent |
| Negotiation.NetworkName | apps/agents/src/garden/negotiation.ts:187-194 | 1, 8453 and 84532 have their names; any other id reads "Chain " and the id |
| Negotiation.NetworkNameInjective | apps/agents/src/garden/negotiation.ts:187-194 | Different chain ids never get the same name |
| Memory.Load | apps/agents/src/garden/memory.ts:19-27 | A record is found exactly when its key is stored, and it belongs to the address ignoring case |
| Memory.Save | apps/agents/src/garden/memory.ts:32-35 | Saving adds exactly the record's key and keeps every key matching its record |
| Memory.Delete | apps/agents/src/garden/memory.ts:40-43 | Deleting removes exactly the address's key |
| Memory.Active | apps/agents/src/garden/memory.ts:48-51 | Every stored key, with the prefix stripped, is listed |
| Memory.SaveThenLoad | apps/agents/src/garden/memory.ts:19-35 | Loading any case variant of a saved address returns the saved record |
| Memory.SaveLeavesOthers | apps/agents/src/garden/memory.ts:32-35 | Saving changes no other address's record |
| Memory.SaveOverwrites | apps/agents/src/garden/memory.ts:32-35 | A second save for the same address, ignoring case, replaces the first |
| Memory.DeleteThenLoad | apps/agents/src/garden/memory.ts:19-43 | After a delete, no case variant of the address loads anything |
| Memory.DeleteLeavesOthers | apps/agents/src/garden/memory.ts:40-43 | Deleting changes no other address's record |
| Memory.NeverSavedLoadsNone | apps/agents/src/garden/memory.ts:19-35 | An address that was never saved loads nothing after any run of saves |
| Memory.ActiveIsLowerAddresses | apps/agents/src/garden/memory.ts:48-51 | The active list is exactly the lower-cased addresses of the stored records |
| Memory.GardenMemory.constructor | apps/agents/src/garden/memory.ts:11-14 | Starts empty, with a time-to-live of 86400 unless one is given |
| Memory.GardenMemory.LoadConversation | apps/agents/src/garden/memory.ts:19-27 | Returns the stored record for the address's key |
| Memory.GardenMemory.SaveConversation | apps/agents/src/garden/memory.ts:32-35 | The store becomes `Save` of the old store |
| Memory.GardenMemory.DeleteConversation | apps/agents/src/garden/memory.ts:40-43 | The store becomes `Delete` of the old store |
| Memory.GardenMemory.GetActiveConversations | apps/agents/src/garden/memory.ts:48-51 | Returns the active addresses, each of which loads a record |
| Payments.InOrder | apps/agents/src/shared/x402.ts:74-83 | `Array.from(values())` lists the agreements in insertion order |
| Payments.ForConversation | apps/agents/src/shared/x402.ts:73-77 | The filter keeps exactly the agreements of the conversation |
| Payments.ForConversationAppend | apps/agents/src/shared/x402.ts:73-77 | The filter keeps insertion order and lists each agreement once: an agreement added last is listed last, if it is listed at all |
| Payments.TotalBounds | apps/agents/src/shared/x402.ts:82-86 | The total is 0 while all agreements are pending, and non-negative for non-negative amounts |
| Payments.PendingAddsNothing | apps/agents/src/shared/x402.ts:82-86 | A pending agreement adds nothing to the committed total |
| Payments.TotalAfterReplace | apps/agents/src/shared/x402.ts:82-86 | Replacing an agreement changes the total by the difference of the two shares |
| Payments.InOrderAfterAppend | apps/agents/src/shared/x402.ts:33 | A new id goes to the end of the insertion order |
| Payments.InOrderAfterUpdate | apps/agents/src/shared/x402.ts:46-59 | Setting an existing id keeps its place in the order |
| Payments.UsdcAmount | apps/agents/src/shared/x402.ts:114 | The amount comes from the leftmost match of the number-then-"usd" pattern |
| Payments.IsConfirmation | apps/agents/src/shared/x402.ts:111 | One of "i agree", "i'll pay", "i will pay", "confirmed" occurs, ignoring case |
| Payments.ParseAgreement | apps/agents/src/shared/x402.ts:107-118 | `confirmed` holds exactly when a confirmation phrase occurs, in any case; `amount` is the amount of the leftmost number-then-"usd" match (`UsdcAmount`), missing exactly when the pattern matches nowhere, and never negative |
| Payments.RequestedReplyReadsBack | apps/agents/src/shared/x402.ts:98-118 | The reply the payment request asks for, "I agree to pay n USDC", parses as confirmed with amount n |
| Payments.PaymentTracker.constructor | apps/agents/src/shared/x402.ts:11-12 | Starts with no agreements |
| Payments.PaymentTracker.RecordAgreement | apps/agents/src/shared/x402.ts:17-35 | Stores and returns a pending agreement with id conversation + "-" + time and the given fields; a new id is appended to the order |
| Payments.PaymentTracker.MarkCommitted | apps/agents/src/shared/x402.ts:40-48 | Unknown id: nothing, and no change; known id: committed with its time, and nothing else changes, whatever the prior status |
| Payments.PaymentTracker.MarkWorkStarted | apps/agents/src/shared/x402.ts:53-61 | Unknown id: nothing, and no change; known id: in progress with its time, whatever the prior status |
| Payments.PaymentTracker.GetAgreement | apps/agents/src/shared/x402.ts:66-68 | Found exactly for a stored id, and the agreement carries that id |
| Payments.PaymentTracker.GetAgreementsForConversation | apps/agents/src/shared/x402.ts:73-77 | The stored agreements of the conversation, in insertion order (`ForConversation` of all agreements) |
| Payments.PaymentTracker.GetTotalCommitted | apps/agents/src/shared/x402.ts:82-86 | The sum of the amounts of the agreements past pending (`TotalCommitted`); zero while every agreement is pending; non-negative for non-negative amounts |
| Payments.RecordKeepsTotal | apps/agents/src/shared/x402.ts:17-86 | Recording a new agreement (status pending, line 29) leaves the committed total unchanged |
| Payments.MarkAddsAmountIffPending | apps/agents/src/shared/x402.ts:40-86 | Marking (lines 44 and 57) adds the agreement's amount to the total exactly when it was pending |
| Sequences.Last | apps/agents/src/farm/agent.ts:90-92 | `slice(-n)` for a positive n keeps the last min(n, length) elements, in order |
| Sequences.LastAfterAppend | apps/agents/src/farm/agent.ts:87-92 | Trimming to the last n after each push keeps the last n of everything pushed |
| Sequences.LastOfLast | apps/agents/src/farm/agent.ts:119 | The last 10 of the last 100 are the last 10 of all |
| FarmAgent.FirstCommandFrom | apps/agents/src/farm/agent.ts:41-47 | The trimmed capture of the first command pattern that matches; nothing when none does |
| FarmAgent.ParseRequest | apps/agents/src/farm/agent.ts:38-48 | Nothing exactly when no command pattern matches the lower-cased, trimmed text |
| FarmAgent.MakeMeAPoem | apps/agents/src/farm/agent.ts:38-48 | "Make me a poem!" asks for "poem" |
| FarmAgent.TotalResponseTimeAppend | apps/agents/src/farm/agent.ts:86 | Logging an exchange adds its response time to the total |
| FarmAgent.FarmAgent.constructor | apps/agents/src/farm/agent.ts:15-22 | Zero counters and an empty log |
| FarmAgent.FarmAgent.HandleMessage | apps/agents/src/farm/agent.ts:53-104 | Before the address is known, and for the agent's own messages, nothing changes; otherwise the message is answered |
| FarmAgent.FarmAgent.Answer | apps/agents/src/farm/agent.ts:63-103 | A recognised, non-empty item is counted, timed, logged and answered with its placeholder; anything else gets the fixed reply, and the statistics stay |
| FarmAgent.FarmAgent.LogExchange | apps/agents/src/farm/agent.ts:84-92 | One more request, its time added, and the log is the last 100 exchanges |
| FarmAgent.FarmAgent.GetStats | apps/agents/src/farm/agent.ts:109-121 | The average times the count is the total time (0 before any request); the recent list is the last 10 exchanges |
| FarmRoutes.MessageBuffer.constructor | apps/api/src/routes/farm.ts:9 | Starts empty |
| FarmRoutes.MessageBuffer.AddToBuffer | apps/api/src/routes/farm.ts:15-20 | The message is appended last; the buffer stays within 1000, and on overflow exactly the oldest is dropped |
| FarmRoutes.FarmMessages | apps/api/src/routes/farm.ts:27-28 | Exactly the farm messages of the buffer |
| FarmRoutes.FarmMessagesAppend | apps/api/src/routes/farm.ts:27-28 | The filter keeps buffer order |
| FarmRoutes.ParseInt | apps/api/src/routes/farm.ts:26 | `parseInt` gives a number exactly when a digit follows the leading spaces and sign |
| FarmRoutes.ParseNatRoundTrip | apps/api/src/routes/farm.ts:26 | A rendered natural number parses back |
| FarmRoutes.ParseNegativeRoundTrip | apps/api/src/routes/farm.ts:26 | A rendered negative number parses back |
| FarmRoutes.ParseIntRoundTrip | apps/api/src/routes/farm.ts:26 | Every rendered integer parses back |
| FarmRoutes.SliceNegated | apps/api/src/routes/farm.ts:29 | `slice(-limit)`: 0 or NaN keeps all; n > 0 keeps the last n; n < 0 drops the first -n |
| FarmRoutes.StreamSelection | apps/api/src/routes/farm.ts:25-35 | Only farm messages from the buffer, at most all of them |
| FarmRoutes.StreamDefaultLimit | apps/api/src/routes/farm.ts:26-29 | With no limit, or an empty one, the last 100 farm messages |
| FarmRoutes.StreamPositiveLimit | apps/api/src/routes/farm.ts:26-29 | Limit n > 0 gives the last min(n, count) farm messages |
| FarmRoutes.StreamZeroOrNaNLimit | apps/api/src/routes/farm.ts:26-29 | Limit 0, or one that is not a number, gives every farm message |
| FarmRoutes.NonNumericLimitIsNaN | apps/api/src/routes/farm.ts:26 | "abc" reads as NaN |
| GardenAgent.PaymentStep | apps/agents/src/garden/agent.ts:73-122 | A record and a reply are always produced; the record is paid, and one more negotiation completed, exactly when the authorization verifies (or it was paid before) |
| GardenAgent.OpeningStep | apps/agents/src/garden/agent.ts:124-161 | Always a reply; a record exactly on support intent, for the sender, not accepted, carrying the engine's proposal; completions and revenue unchanged |
| GardenAgent.CounterOfferStep | apps/agents/src/garden/agent.ts:171-230 | The counter-offer is recorded and counted as one round and nothing else counted; accepted exactly when it already was or the engine accepts the offer |
| GardenAgent.SelectionStep | apps/agents/src/garden/agent.ts:232-276 | Counters unchanged; accepted exactly when it already was or a tier is named after a proposal; otherwise the reply is the prompt |
| GardenAgent.OngoingStep | apps/agents/src/garden/agent.ts:163-276 | A record for the same counterparty and a reply; one more round exactly when the text holds a counter-offer |
| GardenAgent.Step | apps/agents/src/garden/agent.ts:58-277 | A reply exactly for messages not ignored; only the payment branch changes completions |
| GardenAgent.TranscriptGrows | apps/agents/src/garden/agent.ts:93-276 | In an ongoing negotiation the user's text then the reply are appended (lines 164-168, then the reply); a payment appends only the reply (93-97, 113-117); a new negotiation starts with exactly the two (lines 134, 142-146) |
| GardenAgent.OngoingTranscript | apps/agents/src/garden/agent.ts:163-276 | An ongoing message appends the user's text and then the reply to the stored transcript |
| GardenAgent.StepKeepsSchema | packages/shared/src/types.ts:102-104 | A record saved for a message from a valid address, over records that satisfy the schema's address constraint, satisfies it too |
| GardenAgent.OneReplyPerMessage | apps/agents/src/garden/agent.ts:58-277 | Exactly one reply for each message not ignored; none, and no change, for ignored ones |
| GardenAgent.PaymentStepSaves | apps/agents/src/garden/agent.ts:82-120 | The payment branch saves a record that ends with its reply and carries the stored one forward |
| GardenAgent.CounterOfferStepSaves | apps/agents/src/garden/agent.ts:171-230 | The counter-offer branch saves a record that ends with its reply and carries the stored one forward |
| GardenAgent.SelectionStepSaves | apps/agents/src/garden/agent.ts:232-276 | The tier and prompt branches save a record that ends with the reply and carries the stored one forward |
| GardenAgent.StepSaves | apps/agents/src/garden/agent.ts:71-277 | Every saved record ends with the reply sent and is well formed; it extends the sender's stored record, or is new for the sender |
| GardenAgent.SavedEndsWithReply | apps/agents/src/garden/agent.ts:93-276 | The last transcript entry of every record saved (lines 93-99, 113-119, 142-149, 204-210, 221-227, 258-264, 270-276) is the reply sent, and the store stays well formed |
| GardenAgent.DeclineWithoutIntent | apps/agents/src/garden/agent.ts:124-160 | With no record (line 124) and no support intent: one "negotiation only" reply; store and counters unchanged |
| GardenAgent.OpenOnIntent | apps/agents/src/garden/agent.ts:124-151 | With support intent: the proposal is sent and recorded, not yet accepted, the transcript is message then proposal, and one more negotiation is active |
| GardenAgent.CounterOfferTakesPrecedence | apps/agents/src/garden/agent.ts:171-230 | A counter-offer is recorded and counted as a round; accepted exactly from the floor; a rejection leaves `accepted` as it was |
| GardenAgent.TierTwoReadAsCounterOffer | apps/agents/src/garden/agent.ts:172-234 | "tier 2" (read at lines 172-173 and 233-234) in an ongoing negotiation is rejected as an offer of 2 USDC below the floor 4 |
| GardenAgent.TierSelectionCharges | apps/agents/src/garden/agent.ts:232-266 | A tier chosen after a proposal is accepted at that tier's proposed price, with requirements for it |
| GardenAgent.PaymentCounts | apps/agents/src/garden/agent.ts:73-106 | A verified payment needs an accepted record, completes one more and adds its amount; nothing else changes completions or revenue |
| GardenAgent.PaymentRepeats | apps/agents/src/garden/agent.ts:75-103 | The same verified authorization sent twice completes twice and counts the amount twice |
| GardenAgent.StepKeepsRecords | apps/agents/src/garden/agent.ts:91-257 | A stored negotiation (lines 91-92, 164-169 and the updates at 174, 187, 203, 245, 257) is never dropped; `accepted` and `paymentAuthorized` are never reset; the transcript only grows |
| GardenAgent.GardenAgent.constructor | apps/agents/src/garden/agent.ts:16-50 | An empty store, zero counters, and the default engine |
| GardenAgent.GardenAgent.HandleMessage | apps/agents/src/garden/agent.ts:58-277 | Store, outbox and counters end as `Step` describes, and the store stays well formed |
| GardenAgent.GardenAgent.HandlePayment | apps/agents/src/garden/agent.ts:73-122 | The payment branch as `PaymentStep` describes it |
| GardenAgent.GardenAgent.HandleOpening | apps/agents/src/garden/agent.ts:124-161 | The first-message branch as `OpeningStep` describes it |
| GardenAgent.GardenAgent.HandleOngoing | apps/agents/src/garden/agent.ts:163-276 | The ongoing branch as `OngoingStep` describes it |
| GardenAgent.GardenAgent.HandleCounterOffer | apps/agents/src/garden/agent.ts:171-230 | The counter-offer branch as `CounterOfferStep` describes it |
| GardenAgent.GardenAgent.HandleSelection | apps/agents/src/garden/agent.ts:232-276 | The tier and prompt branches as `SelectionStep` describes them |
| GardenAgent.GardenAgent.GetStats | apps/agents/src/garden/agent.ts:282-295 | The counters as they are; the average rounds times completions is the rounds (0 before any completion) |

## Left out

- Case folding is ASCII only. `toLowerCase` and `toUpperCase` leave non-ASCII
  letters unchanged in the model. Strings are sequences of characters, not
  UTF-16 code units.
- Amounts are exact `real`s. IEEE rounding, `parseFloat` precision,
  `toFixed`, and number-to-text rendering inside replies are not modelled.
  `parseInt` in `/stream` is exact on integers of any size.
- Reply texts and templates are abstract values (`Types.Reply`). The garden
  proposal, prompt and payment texts are not modelled, and neither is the JSON
  printed into them.
- Clocks and identifiers are parameters: `Date.now()`, ISO timestamps and
  response times. `generateId` and `sleep` are not modelled.
- Redis is a map. TTL and expiry, `KEYS` glob matching, and JSON
  serialisation are not modelled; records live until they are deleted.
- Memory.GardenMemory.GetActiveConversations: returns a set, because the key
  order Redis gives is unspecified.
- The x402 SDK (`parseAuthorization`, `verifyAuthorization`,
  `createPaymentRequirements`) is not part of the repository. It is modelled
  as arbitrary functions, and settlement is not modelled.
- GardenAgent.GardenAgent.HandleMessage: the source returns early when any
  collaborator is missing. The model has only the address to be missing; the
  transport, store, engine and SDK always exist.
- Failures of the store and the transport are not modelled. `redis.get`,
  `setex` and `del`, `JSON.parse` of a corrupt record, and
  `client.sendMessage` can throw in the source, and every step of the model
  completes. The order of the effects would make a failure visible: the
  opening and payment branches (agent.ts:98-103, 142-150) save the record
  before they send the reply and change the counters after it, and the
  counter-offer branch counts its round (line 175) before it saves and
  sends. A failed send therefore leaves a saved record whose reply was never
  delivered, with the counters not updated (or, in the counter-offer branch,
  already updated).
- Async interleaving is not modelled. The handler's awaits run one message at
  a time, and concurrent messages from one sender racing on the store are out
  of scope.
- Transport and chain code (XMTP, the registry), the HTTP glue, the `/stats`
  handlers, the dashboard, and the process launcher are not part of this
  model. The garden `/stream` route is the same selection as the farm one.
- `formatProposalMessage`, `formatNegotiationPrompt` and
  `formatPaymentRequest` are template text. They appear only as the `Reply`
  values that stand for them, plus the "I agree to pay n USDC" wording that
  `Payments.RequestedReplyReadsBack` reads back.
- Payments.PaymentTracker.RecordAgreement: the source's agreement objects are
  shared with callers and are mutated in place by `markCommitted` and
  `markWorkStarted`. In the model, agreements are values, so a caller's copy
  does not change.
- The zod schemas' runtime validation is left out. The address, signature
  and enum constraints are predicates over the datatypes (`Types`), and the
  datatypes are not restricted to values that satisfy them.
- Support patterns `support.*work` and `pay.*you` stay on one line, as `.`
  does. The other eleven are substring tests. `isSupportIntent` tests the
  lower-cased text, which the `i` flag makes no different.
