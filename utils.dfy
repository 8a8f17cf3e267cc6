/**
 * The shared text utilities (packages/shared/src/utils.ts). Each regular
 * expression is encoded as a function that says what the expression
 * matches (or captures) at one position; `Text.Leftmost` then picks the
 * first position, as `String.prototype.match` does.
 */
module Utils {
  import opened Wrappers
  import opened Text

  // ---------------------------------------------------------------------
  // Addresses
  // ---------------------------------------------------------------------

  /** `formatAddress`: "0x1234...5678" for strings of 10 characters or more. */
  function FormatAddress(address: string): (r: string)
    ensures |address| < 10 ==> r == address
    ensures |address| >= 10 ==> |r| == 13 && r[..6] == address[..6] && r[6..9] == "..."
                                && r[9..] == address[|address| - 4..]
  {
    if |address| < 10 then address
    else address[..6] + "..." + address[|address| - 4..]
  }

  /** `isValidAddress`: `/^0x[a-fA-F0-9]{40}$/`. */
  predicate IsValidAddress(address: string) {
    |address| == 42 && address[0] == '0' && address[1] == 'x'
    && forall k :: 2 <= k < 42 ==> IsHexDigit(address[k])
  }

  /** A valid address abbreviates to "0x", four hex digits, "..." and its last four hex digits. */
  lemma FormatValidAddress(address: string)
    requires IsValidAddress(address)
    ensures var r := FormatAddress(address);
            |r| == 13 && r[0] == '0' && r[1] == 'x' && r[6..9] == "..."
            && (forall k :: 2 <= k < 6 ==> IsHexDigit(r[k]))
            && (forall k :: 9 <= k < 13 ==> IsHexDigit(r[k]) && r[k] == address[k + 29])
  {
    var r := FormatAddress(address);
    assert r[..6] == address[..6];
    assert forall k :: 0 <= k < 6 ==> r[k] == address[..6][k] == address[k];
    assert forall k :: 9 <= k < 13 ==> r[k] == r[9..][k - 9] == address[38..][k - 9];
  }

  // ---------------------------------------------------------------------
  // Signatures
  // ---------------------------------------------------------------------

  /** `0x[a-fA-F0-9]{130}` at position `p`. */
  predicate SignatureAt(s: string, p: nat) {
    p + 132 <= |s| && s[p] == '0' && s[p + 1] == 'x'
    && forall k :: p + 2 <= k < p + 132 ==> IsHexDigit(s[k])
  }

  /** The whole of `s` is a signature: `/^0x[a-fA-F0-9]{130}$/`. */
  predicate IsSignatureText(s: string) {
    |s| == 132 && SignatureAt(s, 0)
  }

  /** `isSignature`: a signature occurs somewhere in the content. */
  predicate IsSignature(content: string) {
    exists p: nat :: p <= |content| && SignatureAt(content, p)
  }

  /** The signature text found at `p`, if one starts there. */
  function SignatureCaptureAt(content: string, p: nat): (r: Option<string>)
    ensures r.Some? <==> SignatureAt(content, p)
    ensures r.Some? ==> r.value == content[p..p + 132] && IsSignatureText(r.value)
  {
    if SignatureAt(content, p) then
      var sig := content[p..p + 132];
      assert forall k :: 2 <= k < 132 ==> sig[k] == content[p + k];
      Some(sig)
    else None
  }

  /** `extractSignature`: the leftmost signature in the content. */
  function ExtractSignature(content: string): (r: Option<string>)
    ensures r.Some? <==> IsSignature(content)
    ensures r.Some? ==> IsSignatureText(r.value)
    ensures r.Some? ==> exists p :: 0 <= p < |content| && SignatureAt(content, p)
                          && r.value == content[p..p + 132]
                          && forall q :: 0 <= q < p ==> !SignatureAt(content, q)
  {
    var at := (p: nat) => SignatureCaptureAt(content, p);
    assert forall p :: 0 <= p < |content| ==> at(p) == SignatureCaptureAt(content, p);
    match Leftmost(|content|, 0, at)
    case Some(hit) =>
      assert SignatureCaptureAt(content, hit.0) == Some(hit.1);
      assert forall q :: 0 <= q < hit.0 ==> !SignatureAt(content, q) by {
        forall q | 0 <= q < hit.0 ensures !SignatureAt(content, q) {
          assert at(q).None?;
        }
      }
      Some(hit.1)
    case None =>
      assert !IsSignature(content) by {
        forall p: nat | p <= |content| ensures !SignatureAt(content, p) {
          if p < |content| { assert at(p).None?; }
        }
      }
      None
  }

  // ---------------------------------------------------------------------
  // Counter-offers
  // ---------------------------------------------------------------------

  /** `parseFloat` of digits `whole`, optionally followed by "." and digits `fraction`. */
  function DecimalValue(whole: string, fraction: string): (v: real)
    requires AllDigits(whole) && AllDigits(fraction)
    ensures v >= 0.0
  {
    DigitsValue(whole) as real + DigitsValue(fraction) as real / Pow10(|fraction|) as real
  }

  /** `\d+(?:\.\d{2})?` at `d`, both parts greedy; the value of the text it captures. */
  function TwoPlaceNumberAt(s: string, d: nat): (v: real)
    requires d < |s| && IsDigit(s[d])
    ensures v >= 0.0
  {
    var e := DigitRunEnd(s, d);
    if e + 2 < |s| && s[e] == '.' && IsDigit(s[e + 1]) && IsDigit(s[e + 2]) then
      DecimalValue(s[d..e], s[e + 1..e + 3])
    else
      DecimalValue(s[d..e], "")
  }

  /**
   * The first counter-offer pattern, `/\$?(\d+(?:\.\d{2})?)\s*(?:usdc|dollar|usd)?/i`,
   * at position `p`. Its tail is optional, so it never decides whether
   * there is a match.
   */
  function DollarAmountAt(s: string, p: nat): (r: Option<real>)
    ensures r.Some? ==> p < |s| && (IsDigit(s[p]) || (s[p] == '$' && p + 1 < |s| && IsDigit(s[p + 1])))
  {
    if p + 1 < |s| && s[p] == '$' && IsDigit(s[p + 1]) then Some(TwoPlaceNumberAt(s, p + 1))
    else if p < |s| && IsDigit(s[p]) then Some(TwoPlaceNumberAt(s, p))
    else None
  }

  const OfferVerbs: seq<string> := ["offer", "propose", "suggest"]
  const OpinionVerbs: seq<string> := ["is", "seems", "sounds"]

  /** The second pattern, `/(?:offer|propose|suggest)\s+\$?(\d+(?:\.\d{2})?)/i`, at `p`. */
  function OfferVerbAmountAt(s: string, p: nat): Option<real> {
    match FirstWordAt(s, p, OfferVerbs)
    case None => None
    case Some(k) =>
      var q := p + |OfferVerbs[k]|;
      if q < |s| && IsSpace(s[q]) then DollarAmountAt(s, SpaceRunEnd(s, q)) else None
  }

  /** `\s*(?:is|seems|sounds)` at `i`; the spaces are taken greedily. */
  predicate OpinionVerbAfter(s: string, i: nat)
    requires i <= |s|
  {
    FirstWordAt(s, SpaceRunEnd(s, i), OpinionVerbs).Some?
  }

  /**
   * The third pattern, `/(\d+(?:\.\d{2})?)\s*(?:is|seems|sounds)/i`, at `p`.
   * The digit run is maximal (a shorter one leaves a digit where a point,
   * a space or a letter is needed); the two decimals are tried first and
   * dropped when the rest fails after them.
   */
  function AmountBeforeVerbAt(s: string, p: nat): Option<real> {
    if p < |s| && IsDigit(s[p]) then
      var e := DigitRunEnd(s, p);
      if e + 2 < |s| && s[e] == '.' && IsDigit(s[e + 1]) && IsDigit(s[e + 2]) && OpinionVerbAfter(s, e + 3) then
        Some(DecimalValue(s[p..e], s[e + 1..e + 3]))
      else if OpinionVerbAfter(s, e) then
        Some(DecimalValue(s[p..e], ""))
      else None
    else None
  }

  /** Counter-offer pattern `k` (0, 1 or 2, in the source's order) at `p`. */
  function CounterOfferPatternAt(k: nat, s: string, p: nat): Option<real> {
    if k == 0 then DollarAmountAt(s, p)
    else if k == 1 then OfferVerbAmountAt(s, p)
    else AmountBeforeVerbAt(s, p)
  }

  /** What `content.match(patterns[k])` captures, as a number: the capture at the leftmost match. */
  function CounterOfferMatch(k: nat, s: string): (r: Option<real>)
    ensures r.None? <==> forall p :: 0 <= p < |s| ==> CounterOfferPatternAt(k, s, p).None?
    ensures r.Some? ==> exists p :: 0 <= p < |s| && CounterOfferPatternAt(k, s, p) == r
                          && forall q :: 0 <= q < p ==> CounterOfferPatternAt(k, s, q).None?
  {
    var at := (p: nat) => CounterOfferPatternAt(k, s, p);
    assert forall p :: 0 <= p < |s| ==> at(p) == CounterOfferPatternAt(k, s, p);
    match Leftmost(|s|, 0, at)
    case Some(hit) => Some(hit.1)
    case None => None
  }

  /** The accepted range of a counter-offer: strictly between 0 and 10000. */
  predicate InOfferRange(amount: real) {
    0.0 < amount < 10000.0
  }

  /** Pattern `k`'s match exists and is in range. */
  predicate OfferHit(k: nat, s: string) {
    CounterOfferMatch(k, s).Some? && InOfferRange(CounterOfferMatch(k, s).value)
  }

  /** The loop of `extractCounterOffer` from pattern `k` on: the first pattern whose match is in range. */
  function CounterOfferFrom(s: string, k: nat): (r: Option<real>)
    ensures r.Some? ==> exists j :: k <= j < 3 && OfferHit(j, s) && r == CounterOfferMatch(j, s)
                          && forall i :: k <= i < j ==> !OfferHit(i, s)
    ensures r.None? ==> forall j :: k <= j < 3 ==> !OfferHit(j, s)
    decreases 3 - k
  {
    if k >= 3 then None
    else if OfferHit(k, s) then CounterOfferMatch(k, s)
    else CounterOfferFrom(s, k + 1)
  }

  /**
   * `extractCounterOffer`: the first of the three patterns, in order, whose
   * leftmost match lies strictly between 0 and 10000.
   */
  function ExtractCounterOffer(content: string): (r: Option<real>)
    ensures r.Some? ==> InOfferRange(r.value)
    ensures r.Some? <==> exists k :: 0 <= k < 3 && OfferHit(k, content)
  {
    CounterOfferFrom(content, 0)
  }

  /**
   * When `d` is the first digit of the text, the first pattern captures the
   * digit run there (with two decimals when they follow), whether or not a
   * "$" precedes it.
   */
  lemma {:induction false} FirstPatternTakesFirstDigits(s: string, d: nat)
    requires d < |s| && IsDigit(s[d])
    requires forall q :: 0 <= q < d ==> !IsDigit(s[q])
    ensures CounterOfferMatch(0, s) == Some(TwoPlaceNumberAt(s, d))
  {
    assert CounterOfferPatternAt(0, s, d).Some?;
    var r := CounterOfferMatch(0, s);
    var p :| 0 <= p < |s| && CounterOfferPatternAt(0, s, p) == r
             && forall q :: 0 <= q < p ==> CounterOfferPatternAt(0, s, q).None?;
    assert p <= d;
    if p < d {
      assert !IsDigit(s[p]);
      assert s[p] == '$' && IsDigit(s[p + 1]);
      assert p + 1 == d;
    }
  }

  /** A text with no digit has no counter-offer. */
  lemma {:induction false} NoDigitsNoCounterOffer(s: string)
    requires forall q :: 0 <= q < |s| ==> !IsDigit(s[q])
    ensures ExtractCounterOffer(s) == None
  {
    forall k, p | 0 <= k < 3 && 0 <= p < |s|
      ensures CounterOfferPatternAt(k, s, p).None?
    {
      if k == 1 {
        match FirstWordAt(s, p, OfferVerbs)
        case None =>
        case Some(j) =>
          var q := p + |OfferVerbs[j]|;
          if q < |s| && IsSpace(s[q]) {
            var t := SpaceRunEnd(s, q);
            assert DollarAmountAt(s, t).None?;
          }
      }
    }
    forall k | 0 <= k < 3
      ensures !OfferHit(k, s)
    {
      assert CounterOfferMatch(k, s).None?;
    }
  }

  /** The first digit run of the text, if its value is in range, is the counter-offer. */
  lemma FirstDigitsAreTheCounterOffer(s: string, d: nat)
    requires d < |s| && IsDigit(s[d])
    requires forall q :: 0 <= q < d ==> !IsDigit(s[q])
    requires InOfferRange(TwoPlaceNumberAt(s, d))
    ensures ExtractCounterOffer(s) == Some(TwoPlaceNumberAt(s, d))
  {
    FirstPatternTakesFirstDigits(s, d);
    assert OfferHit(0, s);
  }

  /** "tier 2" reads as a counter-offer of 2, although it also names the standard tier. */
  lemma TierTwoIsACounterOffer()
    ensures ExtractCounterOffer("tier 2") == Some(2.0)
    ensures ExtractTierSelection("tier 2") == Some(1)
  {
    TierTwoCounterOffer();
    TierTwoSelection();
  }

  lemma TierTwoCounterOffer()
    ensures ExtractCounterOffer("tier 2") == Some(2.0)
  {
    var s := "tier 2";
    assert DigitRunEnd(s, 6) == 6;
    assert DigitRunEnd(s, 5) == 6;
    assert s[5..6] == "2";
    assert DigitsValue("2") == 2 by {
      assert "2"[..0] == "";
    }
    assert TwoPlaceNumberAt(s, 5) == 2.0;
    FirstDigitsAreTheCounterOffer(s, 5);
  }

  lemma TierTwoSelection()
    ensures ExtractTierSelection("tier 2") == Some(1)
  {
    var s := "tier 2";
    assert Lower(s) == s;
    forall i: nat | i <= |s| ensures !MatchesAt(s, i, "min") {
      if i + 3 <= |s| { assert s[i + 0] != "min"[0]; }
    }
    forall i: nat | i <= |s| ensures !MatchesAt(s, i, "minimum") {
      assert !MatchesAt(s, i, "min");
    }
    forall i: nat, j: nat | i <= |s| && j <= |s| ensures !TierWordAt(s, i, j, ["one", "1"]) {
      if i + 4 <= j && MatchesAt(s, i, "tier") && AllSpace(s, i + 4, j) {
        assert s[i + 0] == "tier"[0];
        assert i == 0;
        assert !IsSpace(s[5]);
        assert j == 4 || j == 5;
        assert s[j + 0] != "one"[0] && s[j + 0] != "1"[0];
      }
    }
    assert MatchesAt(s, 5, ["two", "2"][1]);
    assert TierWordAt(s, 0, 5, ["two", "2"]);
  }

  // ---------------------------------------------------------------------
  // Tier selection
  // ---------------------------------------------------------------------

  /** `tier\s*(w0|w1)` with "tier" at `i` and the word at `j`. */
  predicate TierWordAt(s: string, i: nat, j: nat, words: seq<string>) {
    i + 4 <= j <= |s| && MatchesAt(s, i, "tier") && AllSpace(s, i + 4, j)
    && exists k :: 0 <= k < |words| && MatchesAt(s, j, words[k])
  }

  /** `/tier\s*(w0|w1)/.test(s)`. */
  predicate TierWord(s: string, words: seq<string>) {
    exists i: nat, j: nat :: i <= |s| && j <= |s| && TierWordAt(s, i, j, words)
  }

  /**
   * `extractTierSelection`: tests, in order, the minimum, standard and
   * premium patterns (case-sensitive, on the lower-cased content).
   */
  function ExtractTierSelection(content: string): (r: Option<nat>)
    ensures r.Some? ==> r.value < 3
    ensures r == Some(0) <==> Contains(Lower(content), "min") || TierWord(Lower(content), ["one", "1"])
    ensures r == Some(1) <==> !Contains(Lower(content), "min") && !TierWord(Lower(content), ["one", "1"])
                              && (Contains(Lower(content), "standard") || TierWord(Lower(content), ["two", "2"]))
    ensures r == Some(2) <==> !Contains(Lower(content), "min") && !TierWord(Lower(content), ["one", "1"])
                              && !Contains(Lower(content), "standard") && !TierWord(Lower(content), ["two", "2"])
                              && (Contains(Lower(content), "premium") || TierWord(Lower(content), ["three", "3"]))
    ensures r.None? <==> !Contains(Lower(content), "min") && !TierWord(Lower(content), ["one", "1"])
                         && !Contains(Lower(content), "standard") && !TierWord(Lower(content), ["two", "2"])
                         && !Contains(Lower(content), "premium") && !TierWord(Lower(content), ["three", "3"])
  {
    var lower := Lower(content);
    if Contains(lower, "minimum") || Contains(lower, "min") || TierWord(lower, ["one", "1"]) then
      MinimumContainsMin(lower);
      Some(0)
    else if Contains(lower, "standard") || TierWord(lower, ["two", "2"]) then Some(1)
    else if Contains(lower, "premium") || TierWord(lower, ["three", "3"]) then Some(2)
    else None
  }

  lemma MinimumContainsMin(s: string)
    ensures Contains(s, "minimum") ==> Contains(s, "min")
  {
    if Contains(s, "minimum") {
      var i: nat :| i <= |s| && MatchesAt(s, i, "minimum");
      assert forall k :: 0 <= k < 3 ==> s[i + k] == "minimum"[k] == "min"[k];
      assert MatchesAt(s, i, "min");
    }
  }

  /** A lower-case word occurs in the lower-cased text exactly when it occurs ignoring case. */
  lemma ContainsLowerIffIgnoringCase(s: string, w: string)
    requires Lower(w) == w
    ensures Contains(Lower(s), w) <==> ContainsIgnoringCase(s, w)
  {
    if Contains(Lower(s), w) {
      var i: nat :| i <= |s| && MatchesAt(Lower(s), i, w);
      assert forall k :: 0 <= k < |w| ==> LowerChar(w[k]) == Lower(w)[k] == w[k];
      assert MatchesAtIgnoringCase(s, i, w);
    }
    if ContainsIgnoringCase(s, w) {
      var i: nat :| i <= |s| && MatchesAtIgnoringCase(s, i, w);
      assert forall k :: 0 <= k < |w| ==> LowerChar(w[k]) == Lower(w)[k] == w[k];
      assert MatchesAt(Lower(s), i, w);
    }
  }

  /** Any text containing "min" in any case selects the minimum tier, "premium" notwithstanding. */
  lemma MinWinsOverPremium(content: string)
    requires ContainsIgnoringCase(content, "min")
    ensures ExtractTierSelection(content) == Some(0)
  {
    ContainsLowerIffIgnoringCase(content, "min");
  }

  // ---------------------------------------------------------------------
  // Farm responses
  // ---------------------------------------------------------------------

  /** `item.charAt(0).toUpperCase() + item.slice(1)`. */
  function Capitalized(item: string): (r: string)
    ensures |r| == |item|
    ensures |item| > 0 ==> r[0] == UpperChar(item[0]) && r[1..] == item[1..]
  {
    if item == [] then [] else [UpperChar(item[0])] + item[1..]
  }

  /** The four reply templates of `generatePlaceholderResponse`, with the item filled in. */
  function PlaceholderTemplates(item: string): (t: seq<string>)
    ensures |t| == 4
  {
    [ "Here's your " + item + ". It's crafted with precision and ready for use.",
      "Your " + item + " is complete. Delivered as requested.",
      Capitalized(item) + " delivered. No questions asked.",
      "Here's your " + item + ". Exactly what you asked for." ]
  }

  /**
   * `generatePlaceholderResponse`: template number `|item| mod 4`, which
   * names the item (capitalised in template 2).
   */
  function GeneratePlaceholderResponse(item: string): (r: string)
    ensures r == PlaceholderTemplates(item)[|item| % 4]
    ensures |item| % 4 == 2 ==> MatchesAt(r, 0, Capitalized(item))
    ensures |item| % 4 != 2 ==> Contains(r, item)
  {
    var r := PlaceholderTemplates(item)[|item| % 4];
    TemplatesNameTheItem(item);
    r
  }

  lemma TemplatesNameTheItem(item: string)
    ensures MatchesAt(PlaceholderTemplates(item)[0], 12, item)
    ensures MatchesAt(PlaceholderTemplates(item)[1], 5, item)
    ensures MatchesAt(PlaceholderTemplates(item)[2], 0, Capitalized(item))
    ensures MatchesAt(PlaceholderTemplates(item)[3], 12, item)
  {
  }
}
