/**
 * The agents' configuration (packages/shared/src/constants.ts): the garden
 * price tiers and support patterns, the farm command patterns, and the
 * key under which a conversation is stored.
 */
module Constants {
  import opened Wrappers
  import opened Text

  // ---------------------------------------------------------------------
  // AGENT_CONFIG.GARDEN
  // ---------------------------------------------------------------------

  const MinTierUsdc: real := 5.0
  const StandardTierUsdc: real := 25.0
  const PremiumTierUsdc: real := 100.0
  /** The fraction by which an offer may fall short of the minimum tier. */
  const Flexibility: real := 0.2
  const MaxNegotiationRounds: int := 3

  lemma TiersAscend()
    ensures 0.0 < MinTierUsdc < StandardTierUsdc < PremiumTierUsdc
  {
  }

  lemma FlexibilityIsAFraction()
    ensures 0.0 <= Flexibility < 1.0
    ensures 0.0 < MinTierUsdc * (1.0 - Flexibility) <= MinTierUsdc
  {
  }

  /**
   * The shapes of the support patterns: a word anywhere (`/fund/i`), or
   * one word followed later on the same line by another (`/support.*work/i`).
   */
  datatype SupportPattern = Word(word: string) | WordThenWord(first: string, second: string)

  const SupportPatterns: seq<SupportPattern> := [
    WordThenWord("support", "work"),
    WordThenWord("pay", "you"),
    Word("compensat"),
    Word("contribute"),
    Word("sponsor"),
    Word("fund"),
    Word("donate"),
    Word("i'd like to"),
    Word("i would like to"),
    Word("how much"),
    Word("pricing"),
    Word("cost"),
    Word("price")
  ]

  /** `first.*second` with `first` at `i` and `second` at `j`, ignoring case. */
  predicate SpanAt(s: string, i: nat, j: nat, first: string, second: string) {
    && MatchesAtIgnoringCase(s, i, first)
    && i + |first| <= j <= |s|
    && OnOneLine(s, i + |first|, j)
    && MatchesAtIgnoringCase(s, j, second)
  }

  /** `pattern.test(s)`: unanchored and case-insensitive. */
  predicate SupportPatternTest(pattern: SupportPattern, s: string) {
    match pattern
    case Word(w) => ContainsIgnoringCase(s, w)
    case WordThenWord(a, b) => exists i: nat, j: nat :: i <= |s| && j <= |s| && SpanAt(s, i, j, a, b)
  }

  /** The patterns are substring tests: "refund" shows support intent through `/fund/`. */
  lemma RefundMatchesFund()
    ensures SupportPatternTest(SupportPatterns[5], "refund")
  {
    assert MatchesAtIgnoringCase("refund", 2, "fund");
  }

  // ---------------------------------------------------------------------
  // AGENT_CONFIG.FARM.commandPatterns
  // ---------------------------------------------------------------------

  /** The three command patterns differ only in their leading words. */
  const CommandPrefixes: seq<string> := ["make me ", "create ", "give me "]

  /** `\?|!|\.` */
  predicate IsStop(c: char) {
    c == '?' || c == '!' || c == '.'
  }

  /** `(.+?)(?:\?|!|\.|$)` can capture `s[start..e]`. */
  predicate CaptureEndsAt(s: string, start: nat, e: nat) {
    start < e <= |s| && OnOneLine(s, start, e) && (e == |s| || IsStop(s[e]))
  }

  /** The lazy `(.+?)`: the shortest capture from `start`, tried from end `e` on. */
  function ShortestCaptureFrom(s: string, start: nat, e: nat): (r: Option<nat>)
    requires start < e && e <= |s| + 1
    requires OnOneLine(s, start, e - 1)
    requires forall e' :: start < e' < e ==> !CaptureEndsAt(s, start, e')
    ensures r.Some? ==> CaptureEndsAt(s, start, r.value)
                        && forall e' :: start < e' < r.value ==> !CaptureEndsAt(s, start, e')
    ensures r.None? ==> forall e' :: start < e' ==> !CaptureEndsAt(s, start, e')
    decreases |s| + 1 - e
  {
    if e > |s| then None
    else if IsLineTerminator(s[e - 1]) then None
    else if e == |s| || IsStop(s[e]) then Some(e)
    else ShortestCaptureFrom(s, start, e + 1)
  }

  function ShortestCapture(s: string, start: nat): (r: Option<nat>)
    ensures r.Some? ==> CaptureEndsAt(s, start, r.value)
                        && forall e' :: start < e' < r.value ==> !CaptureEndsAt(s, start, e')
    ensures r.None? ==> forall e' :: start < e' ==> !CaptureEndsAt(s, start, e')
  {
    if start >= |s| then None else ShortestCaptureFrom(s, start, start + 1)
  }

  /** What the capture of `s[start..]` is, if the lazy group can end somewhere. */
  function CaptureFrom(s: string, start: nat): Option<string> {
    match ShortestCapture(s, start)
    case Some(e) => Some(s[start..e])
    case None => None
  }

  /**
   * Command pattern `prefix (?:a |an )?(.+?)(?:\?|!|\.|$)` (flag `i`) at
   * position `p`: the capture, trying "a ", then "an ", then neither.
   */
  function CommandAt(s: string, p: nat, prefix: string): (r: Option<string>)
    ensures r.Some? ==> |r.value| >= 1
  {
    if !MatchesAtIgnoringCase(s, p, prefix) then None
    else
      var q := p + |prefix|;
      if MatchesAtIgnoringCase(s, q, "a ") && CaptureFrom(s, q + 2).Some? then CaptureFrom(s, q + 2)
      else if MatchesAtIgnoringCase(s, q, "an ") && CaptureFrom(s, q + 3).Some? then CaptureFrom(s, q + 3)
      else CaptureFrom(s, q)
  }

  /** `s.match(commandPatterns[k])[1]`: the capture at the leftmost match. */
  function CommandMatch(k: nat, s: string): (r: Option<string>)
    requires k < |CommandPrefixes|
    ensures r.None? <==> forall p :: 0 <= p < |s| ==> CommandAt(s, p, CommandPrefixes[k]).None?
    ensures r.Some? ==> exists p :: 0 <= p < |s| && CommandAt(s, p, CommandPrefixes[k]) == r
                          && forall q :: 0 <= q < p ==> CommandAt(s, q, CommandPrefixes[k]).None?
  {
    var at := (p: nat) => CommandAt(s, p, CommandPrefixes[k]);
    assert forall p :: 0 <= p < |s| ==> at(p) == CommandAt(s, p, CommandPrefixes[k]);
    match Leftmost(|s|, 0, at)
    case Some(hit) => Some(hit.1)
    case None => None
  }

  // ---------------------------------------------------------------------
  // REDIS_KEYS.GARDEN_CONVERSATION
  // ---------------------------------------------------------------------

  const ConversationKeyPrefix: string := "garden:conv:"

  /** The store key of the conversation with `userAddress`. */
  function GardenConversationKey(userAddress: string): (key: string)
    ensures |key| == |ConversationKeyPrefix| + |userAddress|
    ensures key[..|ConversationKeyPrefix|] == ConversationKeyPrefix
  {
    ConversationKeyPrefix + Lower(userAddress)
  }

  /** Two addresses share a key exactly when they are equal ignoring case. */
  lemma SameKeyIffEqualIgnoringCase(a: string, b: string)
    ensures GardenConversationKey(a) == GardenConversationKey(b) <==> EqualIgnoringCase(a, b)
  {
    var n := |ConversationKeyPrefix|;
    assert GardenConversationKey(a)[n..] == Lower(a);
    assert GardenConversationKey(b)[n..] == Lower(b);
    LowerEqualIffEqualIgnoringCase(a, b);
  }

  /** Stripping the prefix from a key gives the lower-cased address back. */
  lemma KeySuffixIsLowerAddress(a: string)
    ensures GardenConversationKey(a)[|ConversationKeyPrefix|..] == Lower(a)
  {
  }
}
