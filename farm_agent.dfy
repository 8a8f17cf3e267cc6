/**
 * The farm agent (apps/agents/src/farm/agent.ts): it answers every
 * "make me …" style command at once with a placeholder, and keeps request
 * counters and a log of its most recent exchanges.
 */
module FarmAgent {
  import opened Wrappers
  import opened Text
  import opened Types
  import opened Constants
  import opened Sequences
  import Utils

  /** How many exchanges the log keeps, and how many `getStats` reports. */
  const MaxLoggedResponses: nat := 100
  const RecentWindow: nat := 10

  const UnrecognisedReply: string :=
    "I only understand commands like 'Make me [something]'. What would you like me to create?"

  /** The loop of `parseRequest` from pattern `k` on: the trimmed capture of the first pattern that matches. */
  function FirstCommandFrom(s: string, k: nat): (r: Option<string>)
    requires k <= |CommandPrefixes|
    ensures r.None? <==> forall j :: k <= j < |CommandPrefixes| ==> CommandMatch(j, s).None?
    ensures r.Some? ==> exists j :: k <= j < |CommandPrefixes| && CommandMatch(j, s).Some?
                          && r.value == Trim(CommandMatch(j, s).value)
                          && forall i :: k <= i < j ==> CommandMatch(i, s).None?
    decreases |CommandPrefixes| - k
  {
    if k == |CommandPrefixes| then None
    else
      var m := CommandMatch(k, s);
      if m.Some? then Some(Trim(m.value))
      else
        var r := FirstCommandFrom(s, k + 1);
        assert forall i :: k <= i < k + 1 ==> CommandMatch(i, s).None?;
        r
  }

  /**
   * `parseRequest`: lower-case and trim the text, then take the trimmed
   * capture of the first command pattern that matches. The capture is
   * never empty, so the first match ends the search even when it trims
   * to nothing.
   */
  function ParseRequest(content: string): (r: Option<string>)
    ensures r.None? <==> forall j :: 0 <= j < |CommandPrefixes| ==> CommandMatch(j, Trim(Lower(content))).None?
  {
    FirstCommandFrom(Trim(Lower(content)), 0)
  }

  /** "Make me a poem!" asks for a poem. */
  lemma MakeMeAPoem()
    ensures ParseRequest("Make me a poem!") == Some("poem")
  {
    var s := "make me a poem!";
    assert Lower("Make me a poem!") == s by {
      LowerOfMakeMeAPoem();
    }
    TrimUnpadded(s);
    PoemFirstCommand(s);
  }

  lemma PoemFirstCommand(s: string)
    requires s == "make me a poem!"
    ensures FirstCommandFrom(s, 0) == Some("poem")
  {
    PoemCommandMatch(s);
    TrimUnpadded("poem");
  }

  lemma PoemCommandMatch(s: string)
    requires s == "make me a poem!"
    ensures CommandMatch(0, s) == Some("poem")
  {
    PoemCommandAt(s);
    var r := CommandMatch(0, s);
    var p :| 0 <= p < |s| && CommandAt(s, p, CommandPrefixes[0]) == r
             && forall q :: 0 <= q < p ==> CommandAt(s, q, CommandPrefixes[0]).None?;
    assert p == 0;
  }

  lemma LowerOfMakeMeAPoem()
    ensures Lower("Make me a poem!") == "make me a poem!"
  {
    var t := Lower("Make me a poem!");
    assert t[0] == 'm';
    assert forall i :: 1 <= i < |t| ==> t[i] == "Make me a poem!"[i];
  }

  lemma PoemCommandAt(s: string)
    requires s == "make me a poem!"
    ensures CommandAt(s, 0, CommandPrefixes[0]) == Some("poem")
  {
    assert MatchesAtIgnoringCase(s, 0, CommandPrefixes[0]) by {
      assert forall k :: 0 <= k < 8 ==> s[k] == CommandPrefixes[0][k];
    }
    assert MatchesAtIgnoringCase(s, 8, "a ");
    assert ShortestCapture(s, 10) == Some(14) by {
      assert CaptureEndsAt(s, 10, 14);
      forall e' | 10 < e' < 14 ensures !CaptureEndsAt(s, 10, e') {
        assert !IsStop(s[e']);
      }
    }
    assert s[10..14] == "poem";
  }

  /** What the agent sends: a recipient and the text. */
  datatype Sent = Sent(recipient: string, text: string)

  /** The agent's statistics and outbox; `address` is set once the transport is up. */
  class FarmAgent {
    var address: Option<string>
    var requestCount: int
    var totalResponseTimeMs: int
    var responses: seq<FarmExchange>
    var outbox: seq<Sent>
    /** Every exchange the agent has logged, oldest first. */
    ghost var exchanges: seq<FarmExchange>

    /**
     * The counters account for every exchange, and the log is the last
     * hundred of them in arrival order.
     */
    ghost predicate Valid()
      reads this
    {
      && requestCount == |exchanges|
      && totalResponseTimeMs == TotalResponseTime(exchanges)
      && responses == Last(exchanges, MaxLoggedResponses)
    }

    constructor(address: Option<string>)
      ensures Valid()
      ensures this.address == address && requestCount == 0 && totalResponseTimeMs == 0
      ensures responses == [] && outbox == [] && exchanges == []
    {
      this.address := address;
      requestCount := 0;
      totalResponseTimeMs := 0;
      responses := [];
      outbox := [];
      exchanges := [];
    }

    /**
     * `handleMessage`: nothing before the agent has an address or for its
     * own messages; otherwise the answer to the command. `responseTimeMs`
     * and `nowIso` stand for the clock readings.
     */
    method HandleMessage(message: StreamMessage, responseTimeMs: int, nowIso: string)
      requires Valid()
      modifies this
      ensures Valid() && address == old(address)
      ensures old(address).None? || EqualIgnoringCase(message.sender, old(address).value) ==>
                && requestCount == old(requestCount) && totalResponseTimeMs == old(totalResponseTimeMs)
                && responses == old(responses) && outbox == old(outbox) && exchanges == old(exchanges)
      ensures old(address).Some? && !EqualIgnoringCase(message.sender, old(address).value) ==>
                Answered(message, responseTimeMs, nowIso, old(requestCount), old(totalResponseTimeMs),
                         old(responses), old(exchanges), old(outbox))
    {
      if address.None? {
        return;
      }
      LowerEqualIffEqualIgnoringCase(message.sender, address.value);
      if Lower(message.sender) == Lower(address.value) {
        return;
      }
      Answer(message, responseTimeMs, nowIso);
    }

    /**
     * The new state after answering a command: a placeholder for a
     * recognised item, counted and logged, or the fixed help text with
     * the statistics untouched.
     */
    ghost predicate Answered(message: StreamMessage, responseTimeMs: int, nowIso: string,
                             count0: int, total0: int, responses0: seq<FarmExchange>,
                             exchanges0: seq<FarmExchange>, outbox0: seq<Sent>)
      reads this
    {
      var item := ParseRequest(message.content);
      if item.Some? && item.value != "" then
        var reply := Utils.GeneratePlaceholderResponse(item.value);
        && requestCount == count0 + 1
        && totalResponseTimeMs == total0 + responseTimeMs
        && exchanges == exchanges0 + [FarmExchange(FarmRequest(message.content, item.value, nowIso),
                                                   FarmResponse(message.id, item.value, reply, responseTimeMs))]
        && outbox == outbox0 + [Sent(message.sender, reply)]
      else
        && requestCount == count0 && totalResponseTimeMs == total0
        && responses == responses0 && exchanges == exchanges0
        && outbox == outbox0 + [Sent(message.sender, UnrecognisedReply)]
    }

    /** The part of `handleMessage` after the sender checks. */
    method Answer(message: StreamMessage, responseTimeMs: int, nowIso: string)
      requires Valid()
      modifies this
      ensures Valid() && address == old(address)
      ensures Answered(message, responseTimeMs, nowIso, old(requestCount), old(totalResponseTimeMs),
                       old(responses), old(exchanges), old(outbox))
    {
      var item := ParseRequest(message.content);
      if item.Some? && item.value != "" {
        var reply := Utils.GeneratePlaceholderResponse(item.value);
        var request := FarmRequest(message.content, item.value, nowIso);
        var response := FarmResponse(message.id, item.value, reply, responseTimeMs);
        LogExchange(FarmExchange(request, response));
        outbox := outbox + [Sent(message.sender, reply)];
      } else {
        outbox := outbox + [Sent(message.sender, UnrecognisedReply)];
      }
    }

    /** The statistics update of `handleMessage`: count, add the time, log, and keep the last hundred. */
    method LogExchange(exchange: FarmExchange)
      requires Valid()
      modifies this
      ensures Valid()
      ensures requestCount == old(requestCount) + 1
      ensures totalResponseTimeMs == old(totalResponseTimeMs) + exchange.response.responseTimeMs
      ensures exchanges == old(exchanges) + [exchange]
      ensures address == old(address) && outbox == old(outbox)
    {
      LastAfterAppend(exchanges, exchange, MaxLoggedResponses);
      TotalResponseTimeAppend(exchanges, exchange);
      requestCount := requestCount + 1;
      totalResponseTimeMs := totalResponseTimeMs + exchange.response.responseTimeMs;
      responses := responses + [exchange];
      if |responses| > MaxLoggedResponses {
        responses := Last(responses, MaxLoggedResponses);
      }
      exchanges := exchanges + [exchange];
    }

    /** `getStats`: the mean response time (0 before any request) and the last ten exchanges. */
    function GetStats(): (stats: FarmStats)
      reads this
      requires Valid()
      ensures stats.requestCount == |exchanges|
      ensures stats.requestCount > 0 ==>
                stats.avgResponseTimeMs * stats.requestCount as real == TotalResponseTime(exchanges) as real
      ensures stats.requestCount == 0 ==> stats.avgResponseTimeMs == 0.0
      ensures stats.recentResponses == Last(exchanges, RecentWindow)
    {
      LastOfLast(exchanges, RecentWindow, MaxLoggedResponses);
      var avg := if requestCount > 0 then totalResponseTimeMs as real / requestCount as real else 0.0;
      FarmStats(address, requestCount, avg, Last(responses, RecentWindow))
    }
  }

  /** The response times of the logged exchanges, added up. */
  function TotalResponseTime(exchanges: seq<FarmExchange>): int
    decreases |exchanges|
  {
    if exchanges == [] then 0
    else TotalResponseTime(exchanges[..|exchanges| - 1]) + exchanges[|exchanges| - 1].response.responseTimeMs
  }

  lemma TotalResponseTimeAppend(exchanges: seq<FarmExchange>, x: FarmExchange)
    ensures TotalResponseTime(exchanges + [x]) == TotalResponseTime(exchanges) + x.response.responseTimeMs
  {
    assert (exchanges + [x])[..|exchanges|] == exchanges;
  }
}
