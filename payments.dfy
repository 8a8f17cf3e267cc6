/**
 * Payment bookkeeping for agreements made in conversation
 * (apps/agents/src/shared/x402.ts): a tracker of agreements keyed by id,
 * the committed total, and a parser for confirmation messages.
 */
module Payments {
  import opened Wrappers
  import opened Text
  import opened Types
  import Utils

  // ---------------------------------------------------------------------
  // Queries over the agreements, in the map's insertion order
  // ---------------------------------------------------------------------

  /** `Array.from(agreements.values())`: the agreement of each id, in insertion order. */
  function InOrder(ids: seq<string>, agreements: map<string, PaymentAgreement>): (r: seq<PaymentAgreement>)
    requires forall i :: 0 <= i < |ids| ==> ids[i] in agreements
    ensures |r| == |ids|
    ensures forall i :: 0 <= i < |ids| ==> r[i] == agreements[ids[i]]
  {
    seq(|ids|, i requires 0 <= i < |ids| => agreements[ids[i]])
  }

  /** `filter(a => a.conversationId === conversationId)`. */
  function ForConversation(agreements: seq<PaymentAgreement>, conversationId: string): (r: seq<PaymentAgreement>)
    ensures |r| <= |agreements|
    ensures forall a :: a in r <==> a in agreements && a.conversationId == conversationId
    decreases |agreements|
  {
    if agreements == [] then []
    else
      var last := agreements[|agreements| - 1];
      var rest := ForConversation(agreements[..|agreements| - 1], conversationId);
      assert forall a :: a in agreements <==> a == last || a in agreements[..|agreements| - 1];
      if last.conversationId == conversationId then rest + [last] else rest
  }

  /**
   * The filter keeps insertion order and lists each agreement once: an
   * agreement added at the end is listed last, if it is listed at all.
   */
  lemma ForConversationAppend(agreements: seq<PaymentAgreement>, a: PaymentAgreement, conversationId: string)
    ensures ForConversation(agreements + [a], conversationId)
            == ForConversation(agreements, conversationId) + (if a.conversationId == conversationId then [a] else [])
  {
    assert (agreements + [a])[..|agreements|] == agreements;
  }

  /** An agreement's share of the committed total: its amount once it is past pending. */
  function CommittedShare(a: PaymentAgreement): real {
    if a.status == Committed || a.status == InProgress || a.status == Completed then a.amountUsdc else 0.0
  }

  /** `getTotalCommitted`: the amounts of the non-pending agreements, added from the left. */
  function TotalCommitted(agreements: seq<PaymentAgreement>): real
    decreases |agreements|
  {
    if agreements == [] then 0.0
    else TotalCommitted(agreements[..|agreements| - 1]) + CommittedShare(agreements[|agreements| - 1])
  }

  /** Only agreements past pending count, and non-negative amounts give a non-negative total. */
  lemma {:induction false} TotalBounds(agreements: seq<PaymentAgreement>)
    ensures (forall a :: a in agreements ==> a.status == Pending) ==> TotalCommitted(agreements) == 0.0
    ensures (forall a :: a in agreements ==> a.amountUsdc >= 0.0) ==> TotalCommitted(agreements) >= 0.0
    decreases |agreements|
  {
    if agreements != [] {
      var init := agreements[..|agreements| - 1];
      assert forall a :: a in init ==> a in agreements;
      TotalBounds(init);
    }
  }

  /** A pending agreement added at the end does not change the total. */
  lemma PendingAddsNothing(agreements: seq<PaymentAgreement>, a: PaymentAgreement)
    requires a.status == Pending
    ensures TotalCommitted(agreements + [a]) == TotalCommitted(agreements)
  {
    assert (agreements + [a])[..|agreements|] == agreements;
  }

  /** Replacing one agreement changes the total by the difference of the two shares. */
  lemma {:induction false} TotalAfterReplace(agreements: seq<PaymentAgreement>, i: nat, b: PaymentAgreement)
    requires i < |agreements|
    ensures TotalCommitted(agreements[i := b])
            == TotalCommitted(agreements) - CommittedShare(agreements[i]) + CommittedShare(b)
    decreases |agreements|
  {
    var n := |agreements|;
    var updated := agreements[i := b];
    if i == n - 1 {
      assert updated[..n - 1] == agreements[..n - 1];
    } else {
      assert updated[..n - 1] == agreements[..n - 1][i := b];
      TotalAfterReplace(agreements[..n - 1], i, b);
    }
  }

  /** Every id is stored, every stored agreement sits under its id, and no id is listed twice. */
  predicate Tracked(ids: seq<string>, agreements: map<string, PaymentAgreement>) {
    && (forall i, j :: 0 <= i < j < |ids| ==> ids[i] != ids[j])
    && (forall i :: 0 <= i < |ids| ==> ids[i] in agreements)
    && (forall id :: id in agreements ==> id in ids && agreements[id].id == id)
  }

  /** Recording under a new id appends the agreement to the insertion order. */
  lemma InOrderAfterAppend(ids: seq<string>, agreements: map<string, PaymentAgreement>, a: PaymentAgreement)
    requires Tracked(ids, agreements) && a.id !in agreements
    ensures InOrder(ids + [a.id], agreements[a.id := a]) == InOrder(ids, agreements) + [a]
  {
  }

  /** Updating a stored agreement replaces it where it stands in the insertion order. */
  lemma InOrderAfterUpdate(ids: seq<string>, agreements: map<string, PaymentAgreement>, i: nat, b: PaymentAgreement)
    requires Tracked(ids, agreements) && i < |ids|
    ensures InOrder(ids, agreements[ids[i] := b]) == InOrder(ids, agreements)[i := b]
  {
  }

  // ---------------------------------------------------------------------
  // parseAgreement
  // ---------------------------------------------------------------------

  const ConfirmationPhrases: seq<string> := ["i agree", "i'll pay", "i will pay", "confirmed"]

  /** `/i agree|i'll pay|i will pay|confirmed/i.test(message)`. */
  predicate IsConfirmation(message: string) {
    exists k :: 0 <= k < |ConfirmationPhrases| && ContainsIgnoringCase(message, ConfirmationPhrases[k])
  }

  /**
   * `(\d+(?:\.\d+)?)\s*usdc?` (flag `i`) at `p`, as `parseFloat` reads the
   * capture. The digit runs are maximal (a shorter run leaves a digit
   * where a point, a space or a "u" is needed); the fraction is tried
   * first and dropped when the rest fails after it.
   */
  function UsdcAmountAt(s: string, p: nat): Option<real> {
    if p < |s| && IsDigit(s[p]) then
      var e := DigitRunEnd(s, p);
      var f := if e + 1 < |s| && s[e] == '.' && IsDigit(s[e + 1]) then DigitRunEnd(s, e + 1) else e;
      if f > e && MatchesAtIgnoringCase(s, SpaceRunEnd(s, f), "usd") then
        Some(Utils.DecimalValue(s[p..e], s[e + 1..f]))
      else if MatchesAtIgnoringCase(s, SpaceRunEnd(s, e), "usd") then
        Some(Utils.DecimalValue(s[p..e], ""))
      else None
    else None
  }

  /** The amount the leftmost match captures. */
  function UsdcAmount(s: string): (r: Option<real>)
    ensures r.None? <==> forall p :: 0 <= p < |s| ==> UsdcAmountAt(s, p).None?
    ensures r.Some? ==> exists p :: 0 <= p < |s| && UsdcAmountAt(s, p) == r
                          && forall q :: 0 <= q < p ==> UsdcAmountAt(s, q).None?
  {
    var at := (p: nat) => UsdcAmountAt(s, p);
    assert forall p :: 0 <= p < |s| ==> at(p) == UsdcAmountAt(s, p);
    match Leftmost(|s|, 0, at)
    case Some(hit) => Some(hit.1)
    case None => None
  }

  datatype AgreementReading = AgreementReading(amount: Option<real>, confirmed: bool)

  /** `parseAgreement`: the confirmation test and the amount, read independently. */
  function ParseAgreement(message: string): (r: AgreementReading)
    ensures r.confirmed <==> IsConfirmation(message)
    ensures r.amount.Some? ==> r.amount.value >= 0.0
    ensures r.amount.None? <==> forall p :: 0 <= p < |message| ==> UsdcAmountAt(message, p).None?
    ensures r.amount == UsdcAmount(message)
  {
    var confirmed := exists k :: 0 <= k < |ConfirmationPhrases| && ContainsIgnoringCase(message, ConfirmationPhrases[k]);
    var amount := UsdcAmount(message);
    assert amount.Some? ==> amount.value >= 0.0 by {
      if amount.Some? {
        var p :| 0 <= p < |message| && UsdcAmountAt(message, p) == amount;
      }
    }
    AgreementReading(amount, confirmed)
  }

  /** The prefix of the reply a payment request asks for. */
  const ReplyOpening: string := "I agree to pay "

  /**
   * The reply the payment request asks for, `I agree to pay <n> USDC`,
   * reads back as confirmed with amount n.
   */
  lemma RequestedReplyReadsBack(n: nat)
    ensures ParseAgreement(ReplyOpening + NatToString(n) + " USDC") == AgreementReading(Some(n as real), true)
  {
    var s := ReplyOpening + NatToString(n) + " USDC";
    var p := |ReplyOpening|;
    ReplyIsConfirmation(s);
    ReplyAmountAt(n, s);
    ReplyNothingEarlier(s);
    var r := UsdcAmount(s);
    if r.Some? {
      var p0 :| 0 <= p0 < |s| && UsdcAmountAt(s, p0) == r && forall q :: 0 <= q < p0 ==> UsdcAmountAt(s, q).None?;
      assert p0 == p;
    }
  }

  lemma ReplyIsConfirmation(s: string)
    requires ReplyOpening <= s
    ensures IsConfirmation(s)
  {
    assert MatchesAtIgnoringCase(s, 0, ConfirmationPhrases[0]) by {
      assert forall k :: 0 <= k < 7 ==> s[k] == ReplyOpening[k];
    }
  }

  lemma ReplyNothingEarlier(s: string)
    requires ReplyOpening <= s
    ensures forall q :: 0 <= q < |ReplyOpening| ==> UsdcAmountAt(s, q).None?
  {
    forall q | 0 <= q < |ReplyOpening| ensures UsdcAmountAt(s, q).None? {
      assert !IsDigit(s[q]) by {
        assert s[q] == ReplyOpening[q];
      }
    }
  }

  lemma ReplyAmountAt(n: nat, s: string)
    requires s == ReplyOpening + NatToString(n) + " USDC"
    ensures UsdcAmountAt(s, |ReplyOpening|) == Some(n as real)
  {
    var d := NatToString(n);
    var p := |ReplyOpening|;
    var e := p + |d|;
    ReplyLayout(s, d);
    assert UsdcAmountAt(s, p) == Some(Utils.DecimalValue(d, ""));
    NatToStringRoundTrip(n);
  }

  /** Where the digits, the space and "USD" of the requested reply sit. */
  lemma ReplyLayout(s: string, d: string)
    requires |d| >= 1 && AllDigits(d)
    requires s == ReplyOpening + d + " USDC"
    ensures var p, e := |ReplyOpening|, |ReplyOpening| + |d|;
            && IsDigit(s[p]) && DigitRunEnd(s, p) == e && s[p..e] == d
            && s[e] == ' ' && SpaceRunEnd(s, e) == e + 1
            && MatchesAtIgnoringCase(s, e + 1, "usd")
  {
    var p := |ReplyOpening|;
    var e := p + |d|;
    assert s[e] == ' ';
    assert DigitRunEnd(s, p) == e by {
      assert forall k :: p <= k < e ==> s[k] == d[k - p];
      DigitRunEndIs(s, p, e);
    }
    assert SpaceRunEnd(s, e) == e + 1 by {
      assert s[e + 1] == 'U';
      assert SpaceRunEnd(s, e + 1) == e + 1;
    }
    assert MatchesAtIgnoringCase(s, e + 1, "usd") by {
      assert s[e + 1..e + 4] == "USD";
    }
    assert s[p..e] == d;
  }

  // ---------------------------------------------------------------------
  // The tracker
  // ---------------------------------------------------------------------

  /**
   * `PaymentTracker`: the agreements map, with `ids` recording the map's
   * insertion order (which `values()` follows).
   */
  class PaymentTracker {
    var ids: seq<string>
    var agreements: map<string, PaymentAgreement>

    /** The map is consistent with its order, and nothing is marked completed. */
    predicate Valid()
      reads this
    {
      Tracked(ids, agreements) && forall id :: id in agreements ==> agreements[id].status != Completed
    }

    /** All agreements, in insertion order. */
    function Agreements(): seq<PaymentAgreement>
      reads this
      requires Valid()
    {
      InOrder(ids, agreements)
    }

    constructor()
      ensures Valid() && ids == [] && agreements == map[]
    {
      ids := [];
      agreements := map[];
    }

    /**
     * `recordAgreement`: a pending agreement with id `<conversationId>-<nowMs>`.
     * An agreement recorded for the same conversation in the same
     * millisecond is replaced and keeps its place.
     */
    method RecordAgreement(conversationId: string, amountUsdc: real, description: string,
                           walletAddress: string, nowMs: nat, nowIso: string)
      returns (a: PaymentAgreement)
      requires Valid()
      modifies this
      ensures Valid()
      ensures a == PaymentAgreement(conversationId + "-" + NatToString(nowMs), conversationId, amountUsdc,
                                    description, walletAddress, Pending, nowIso, None, None)
      ensures agreements == old(agreements)[a.id := a]
      ensures ids == if a.id in old(agreements) then old(ids) else old(ids) + [a.id]
      ensures a.id !in old(agreements) ==> Agreements() == old(Agreements()) + [a]
    {
      var id := conversationId + "-" + NatToString(nowMs);
      a := PaymentAgreement(id, conversationId, amountUsdc, description, walletAddress, Pending, nowIso, None, None);
      if id !in agreements {
        InOrderAfterAppend(ids, agreements, a);
        ids := ids + [id];
      }
      agreements := agreements[id := a];
    }

    /** `markCommitted`: the agreement becomes committed, whatever its status was. */
    method MarkCommitted(agreementId: string, nowIso: string) returns (r: Option<PaymentAgreement>)
      requires Valid()
      modifies this
      ensures Valid() && ids == old(ids)
      ensures agreementId !in old(agreements) ==> r.None? && agreements == old(agreements)
      ensures agreementId in old(agreements) ==>
                && r == Some(old(agreements)[agreementId].(status := Committed, committedAt := Some(nowIso)))
                && agreements == old(agreements)[agreementId := r.value]
    {
      if agreementId !in agreements {
        return None;
      }
      var updated := agreements[agreementId].(status := Committed, committedAt := Some(nowIso));
      agreements := agreements[agreementId := updated];
      r := Some(updated);
    }

    /** `markWorkStarted`: the agreement becomes in progress, whatever its status was. */
    method MarkWorkStarted(agreementId: string, nowIso: string) returns (r: Option<PaymentAgreement>)
      requires Valid()
      modifies this
      ensures Valid() && ids == old(ids)
      ensures agreementId !in old(agreements) ==> r.None? && agreements == old(agreements)
      ensures agreementId in old(agreements) ==>
                && r == Some(old(agreements)[agreementId].(status := InProgress, workStartedAt := Some(nowIso)))
                && agreements == old(agreements)[agreementId := r.value]
    {
      if agreementId !in agreements {
        return None;
      }
      var updated := agreements[agreementId].(status := InProgress, workStartedAt := Some(nowIso));
      agreements := agreements[agreementId := updated];
      r := Some(updated);
    }

    /** `getAgreement`. */
    function GetAgreement(agreementId: string): (r: Option<PaymentAgreement>)
      reads this
      requires Valid()
      ensures r.Some? <==> agreementId in agreements
      ensures r.Some? ==> r.value.id == agreementId && r.value in Agreements()
    {
      if agreementId in agreements then
        var i :| 0 <= i < |ids| && ids[i] == agreementId;
        assert Agreements()[i] == agreements[agreementId];
        Some(agreements[agreementId])
      else None
    }

    /** `getAgreementsForConversation`. */
    function GetAgreementsForConversation(conversationId: string): (r: seq<PaymentAgreement>)
      reads this
      requires Valid()
      ensures forall a :: a in r <==> a in Agreements() && a.conversationId == conversationId
      ensures r == ForConversation(Agreements(), conversationId)
    {
      ForConversation(Agreements(), conversationId)
    }

    /**
     * `getTotalCommitted`: the sum over the agreements past pending; zero
     * while every agreement is pending, and never negative while no amount is.
     */
    function GetTotalCommitted(): (total: real)
      reads this
      requires Valid()
      ensures (forall a :: a in Agreements() ==> a.status == Pending) ==> total == 0.0
      ensures (forall a :: a in Agreements() ==> a.amountUsdc >= 0.0) ==> total >= 0.0
      ensures total == TotalCommitted(Agreements())
    {
      TotalBounds(Agreements());
      TotalCommitted(Agreements())
    }
  }

  /** Recording a new agreement leaves the committed total unchanged. */
  lemma RecordKeepsTotal(ids: seq<string>, agreements: map<string, PaymentAgreement>, a: PaymentAgreement)
    requires Tracked(ids, agreements) && a.id !in agreements && a.status == Pending
    ensures TotalCommitted(InOrder(ids + [a.id], agreements[a.id := a])) == TotalCommitted(InOrder(ids, agreements))
  {
    InOrderAfterAppend(ids, agreements, a);
    PendingAddsNothing(InOrder(ids, agreements), a);
  }

  /**
   * Marking an agreement committed (or in progress) adds its amount to the
   * total exactly when it was pending; otherwise the total is unchanged.
   */
  lemma MarkAddsAmountIffPending(ids: seq<string>, agreements: map<string, PaymentAgreement>, id: string, b: PaymentAgreement)
    requires Tracked(ids, agreements) && id in agreements
    requires b.amountUsdc == agreements[id].amountUsdc && b.status != Pending
    ensures agreements[id].status == Pending ==>
              TotalCommitted(InOrder(ids, agreements[id := b])) == TotalCommitted(InOrder(ids, agreements)) + b.amountUsdc
    ensures agreements[id].status != Pending ==>
              TotalCommitted(InOrder(ids, agreements[id := b])) == TotalCommitted(InOrder(ids, agreements))
  {
    var i :| 0 <= i < |ids| && ids[i] == id;
    InOrderAfterUpdate(ids, agreements, i, b);
    TotalAfterReplace(InOrder(ids, agreements), i, b);
  }
}
