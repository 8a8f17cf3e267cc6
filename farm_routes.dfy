/**
 * The API's farm message buffer and `/farm/stream` selection
 * (apps/api/src/routes/farm.ts).
 */
module FarmRoutes {
  import opened Wrappers
  import opened Text
  import opened Types
  import opened Sequences

  const MaxBufferSize: nat := 1000

  /**
   * The module-level message buffer. `received` is every message ever
   * added, oldest first; the buffer holds the last thousand of them.
   */
  class MessageBuffer {
    var messages: seq<StreamMessage>
    ghost var received: seq<StreamMessage>

    ghost predicate Valid()
      reads this
    {
      messages == Last(received, MaxBufferSize)
    }

    constructor()
      ensures Valid() && messages == [] && received == []
    {
      messages := [];
      received := [];
    }

    /**
     * `addToBuffer`: push, then drop the oldest message once the buffer
     * is over its size.
     */
    method AddToBuffer(message: StreamMessage)
      requires Valid()
      modifies this
      ensures Valid() && received == old(received) + [message]
      ensures |messages| <= MaxBufferSize
      ensures messages[|messages| - 1] == message
      ensures |old(messages)| < MaxBufferSize ==> messages == old(messages) + [message]
      ensures |old(messages)| == MaxBufferSize ==> messages == old(messages)[1..] + [message]
    {
      LastAfterAppend(received, message, MaxBufferSize);
      messages := messages + [message];
      if |messages| > MaxBufferSize {
        messages := messages[1..];
      }
      assert messages == Last(old(messages) + [message], MaxBufferSize);
      received := received + [message];
    }
  }

  // ---------------------------------------------------------------------
  // GET /stream
  // ---------------------------------------------------------------------

  /** `filter((m) => m.agentType === 'farm')`. */
  function FarmMessages(buffer: seq<StreamMessage>): (r: seq<StreamMessage>)
    ensures |r| <= |buffer|
    ensures forall m :: m in r <==> m in buffer && m.agentType == Farm
    decreases |buffer|
  {
    if buffer == [] then []
    else
      var last := buffer[|buffer| - 1];
      var rest := FarmMessages(buffer[..|buffer| - 1]);
      assert forall m :: m in buffer <==> m == last || m in buffer[..|buffer| - 1];
      if last.agentType == Farm then rest + [last] else rest
  }

  /** The filter keeps buffer order: a new message lands at the end, if it is kept at all. */
  lemma FarmMessagesAppend(buffer: seq<StreamMessage>, m: StreamMessage)
    ensures FarmMessages(buffer + [m]) == FarmMessages(buffer) + (if m.agentType == Farm then [m] else [])
  {
    assert (buffer + [m])[..|buffer|] == buffer;
  }

  /** Where `parseInt` looks for digits: after the leading `\s` and at most one sign. */
  function DigitsStart(text: string): (j: nat)
    ensures j <= |text|
    ensures AllSpace(text, 0, j)
            || (0 < j && AllSpace(text, 0, j - 1) && (text[j - 1] == '-' || text[j - 1] == '+'))
  {
    var i := SpaceRunEnd(text, 0);
    if i < |text| && (text[i] == '-' || text[i] == '+') then i + 1 else i
  }

  /**
   * `parseInt(text, 10)`: the longest run of digits from `DigitsStart`,
   * negated after a minus sign; `None` stands for `NaN` when there is no
   * digit there.
   */
  function ParseInt(text: string): (r: Option<int>)
    ensures r.Some? <==> DigitsStart(text) < |text| && IsDigit(text[DigitsStart(text)])
  {
    var j := DigitsStart(text);
    var e := DigitRunEnd(text, j);
    if e == j then None
    else
      var magnitude: int := DigitsValue(text[j..e]);
      Some(if 0 < j && text[j - 1] == '-' then -magnitude else magnitude)
  }

  /** `parseInt` reads back what a natural number renders as. */
  lemma ParseNatRoundTrip(n: nat)
    ensures ParseInt(NatToString(n)) == Some(n)
  {
    var t := NatToString(n);
    assert !IsSpace(t[0]) && t[0] != '-' && t[0] != '+';
    assert DigitsStart(t) == 0;
    DigitRunEndIs(t, 0, |t|);
    assert t[0..|t|] == t;
    NatToStringRoundTrip(n);
  }

  /** `parseInt` reads back what a negative number renders as. */
  lemma ParseNegativeRoundTrip(n: int)
    requires n < 0
    ensures ParseInt(IntToString(n)) == Some(n)
  {
    var d := NatToString(-n);
    NatToStringRoundTrip(-n);
    NegatedDigitsParse(d);
    assert ParseInt("-" + d) == Some(n);
    assert IntToString(n) == "-" + d;
  }

  /** A minus sign and a run of digits read as the negated value of the digits. */
  lemma NegatedDigitsParse(d: string)
    requires |d| >= 1 && AllDigits(d)
    ensures ParseInt("-" + d) == Some(-(DigitsValue(d) as int))
  {
    var t := "-" + d;
    SignedDigitsLayout(d);
    assert t[1..|t|] == d;
  }

  /** Where `parseInt` finds the sign and the digits of a minus sign followed by digits. */
  lemma SignedDigitsLayout(d: string)
    requires |d| >= 1 && AllDigits(d)
    ensures var t := "-" + d;
            t[0] == '-' && DigitsStart(t) == 1 && DigitRunEnd(t, 1) == |t|
  {
    var t := "-" + d;
    assert t[0] == '-';
    assert DigitsStart(t) == 1 by {
      assert SpaceRunEnd(t, 0) == 0;
    }
    assert forall k :: 1 <= k < |t| ==> t[k] == d[k - 1];
    DigitRunEndIs(t, 1, |t|);
  }

  /** `parseInt` reads back what an integer renders as. */
  lemma ParseIntRoundTrip(n: int)
    ensures ParseInt(IntToString(n)) == Some(n)
  {
    if n < 0 {
      ParseNegativeRoundTrip(n);
    } else {
      ParseNatRoundTrip(n);
    }
  }

  /** The query text `parseInt` reads: the `limit` parameter, or "100" when it is absent or empty. */
  function LimitText(query: Option<string>): string {
    if query.None? || query.value == "" then "100" else query.value
  }

  /**
   * `list.slice(-limit)`: a positive limit keeps the last `limit`
   * elements, a negative one drops the first `-limit`, and zero or `NaN`
   * keep everything.
   */
  function SliceNegated<T>(list: seq<T>, limit: Option<int>): (r: seq<T>)
    ensures limit.None? || limit.value == 0 ==> r == list
    ensures limit.Some? && limit.value > 0 ==> r == Last(list, limit.value)
    ensures limit.Some? && limit.value < 0 ==> r == list[if -limit.value <= |list| then -limit.value else |list|..]
  {
    var start := if limit.None? then 0 else -limit.value;
    var from := if start < 0 then (if |list| + start > 0 then |list| + start else 0)
                else (if start < |list| then start else |list|);
    list[from..]
  }

  /** `GET /stream?limit=…`: the farm messages of the buffer, cut to the limit. */
  function StreamSelection(buffer: seq<StreamMessage>, limitQuery: Option<string>): (r: seq<StreamMessage>)
    ensures forall m :: m in r ==> m in buffer && m.agentType == Farm
    ensures |r| <= |FarmMessages(buffer)|
  {
    SliceNegated(FarmMessages(buffer), ParseInt(LimitText(limitQuery)))
  }

  /** Without a limit, the last hundred farm messages. */
  lemma StreamDefaultLimit(buffer: seq<StreamMessage>)
    ensures StreamSelection(buffer, None) == Last(FarmMessages(buffer), 100)
    ensures StreamSelection(buffer, Some("")) == Last(FarmMessages(buffer), 100)
  {
    ParseIntRoundTrip(100);
    assert IntToString(100) == "100" by {
      assert NatToString(100) == NatToString(10) + [DigitChar(0)];
      assert NatToString(10) == NatToString(1) + [DigitChar(0)];
    }
  }

  /** A positive limit n gives the last min(n, count) farm messages, in buffer order. */
  lemma StreamPositiveLimit(buffer: seq<StreamMessage>, n: int)
    requires n > 0
    ensures StreamSelection(buffer, Some(IntToString(n))) == Last(FarmMessages(buffer), n)
  {
    ParseIntRoundTrip(n);
  }

  /** A limit of 0, or one that is not a number, gives every farm message. */
  lemma StreamZeroOrNaNLimit(buffer: seq<StreamMessage>, limit: string)
    requires limit != "" && (ParseInt(limit).None? || ParseInt(limit) == Some(0))
    ensures StreamSelection(buffer, Some(limit)) == FarmMessages(buffer)
  {
  }

  /** For example, `limit=abc` reads as `NaN`. */
  lemma NonNumericLimitIsNaN()
    ensures ParseInt("abc") == None
  {
    assert SpaceRunEnd("abc", 0) == 0;
    assert DigitRunEnd("abc", 0) == 0;
  }
}
