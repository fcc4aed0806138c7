/**
 * The bot's process state and its three stateful routines: the token cache
 * that `getTokenInfo` updates in place, the messages sent to the chat, and
 * the loops of `processChain` and `loop`.
 */
module Bot {
  import opened Wrappers
  import opened Text
  import opened Config
  import opened Tokens
  import opened Filter
  import opened Scan

  class WhaleBot {
    /** `tokenCache`: token address to the info last resolved for it. */
    var tokenCache: Cache
    /** The alerts delivered to the chat, oldest first. */
    var outbox: seq<Alert>

    /** The bot at start-up: an empty cache and nothing sent. */
    constructor ()
      ensures tokenCache == map[] && outbox == []
      ensures CacheValid(tokenCache)
    {
      tokenCache := map[];
      outbox := [];
    }

    /** `getTokenInfo(tokenAddress, chainName)` with the clock reading `now` and the provider's answer `fetched`. */
    method GetTokenInfo(tokenAddress: string, chainName: string, now: int, fetched: Option<Response>)
      returns (info: TokenInfo)
      modifies this
      ensures Lookup(info, tokenCache) == Resolve(old(tokenCache), tokenAddress, chainName, now, fetched)
      ensures outbox == old(outbox)
    {
      if tokenAddress in tokenCache {
        var cached := tokenCache[tokenAddress];
        if cached.timestamp.Some? && now - cached.timestamp.value < FreshnessMs {
          return cached;
        }
      }
      var platform := PlatformId(chainName);
      if fetched.None? || fetched.value.symbol.None? {
        return Placeholder;
      }
      var data := fetched.value;
      info := TokenInfo(ToUpper(data.symbol.value), DecimalsFor(data, platform), PriceOf(data), Some(now));
      tokenCache := tokenCache[tokenAddress := info];
    }

    /**
     * `processChain(chain)`: rejects when the poll fails; otherwise handles the
     * logs in order, skipping or catching each until one alert is delivered,
     * and returns true right after it.
     */
    method ProcessChain(chain: Chain, input: ChainInput) returns (status: ChainStatus)
      modifies this
      ensures ChainResult(status, tokenCache) == ChainScan(old(tokenCache), chain, input)
      ensures outbox == old(outbox) + (if status.AlertSent? then [status.alert] else [])
    {
      if input.Unreachable? {
        return Rejected;
      }
      var logs := input.logs;
      ghost var spec := ChainRun(tokenCache, chain.name, logs);
      var i := 0;
      while i < |logs|
        invariant 0 <= i <= |logs|
        invariant ChainRun(tokenCache, chain.name, logs[i..]) == spec
        invariant outbox == old(outbox)
      {
        ghost var before := tokenCache;
        assert logs[i..][0] == logs[i] && logs[i..][1..] == logs[i + 1..];
        var log, env := logs[i].log, logs[i].env;
        if HasNoData(log.data) || log.decoded.None? {
          i := i + 1;
          continue;
        }
        var t := log.decoded.value;
        var tokenAddress := ToLower(log.address);
        var info := GetTokenInfo(tokenAddress, chain.name, env.now, env.fetched);
        var verdict := Decide(tokenAddress, t.from, t.value, info);
        if verdict.Pass? {
          var alert := Alert(chain.name, tokenAddress, info.symbol, verdict.action, verdict.amount, verdict.usdValue);
          if env.delivered {
            outbox := outbox + [alert];
            return AlertSent(alert);
          }
        }
        i := i + 1;
      }
      return NoAlert;
    }

    /**
     * One cycle of `loop`: the chains in declaration order until one returns
     * true. A chain that rejects ends the cycle before the next one is
     * scheduled, so `rescheduled` is false exactly then.
     */
    method Loop(inputs: seq<ChainInput>) returns (rescheduled: bool)
      requires |inputs| == |Chains|
      modifies this
      ensures var r := CycleRun(old(tokenCache), Chains, inputs);
        && tokenCache == r.cache
        && rescheduled == !r.status.Halted?
        && outbox == old(outbox) + (if r.status.Alerted? then [r.status.alert] else [])
      ensures |outbox| <= |old(outbox)| + 1
    {
      ghost var spec := CycleRun(tokenCache, Chains, inputs);
      var i := 0;
      while i < |Chains|
        invariant 0 <= i <= |Chains|
        invariant CycleRun(tokenCache, Chains[i..], inputs[i..]) == spec
        invariant outbox == old(outbox)
      {
        assert Chains[i..][0] == Chains[i] && inputs[i..][0] == inputs[i];
        assert Chains[i..][1..] == Chains[i + 1..] && inputs[i..][1..] == inputs[i + 1..];
        var status := ProcessChain(Chains[i], inputs[i]);
        if status.Rejected? {
          return false;
        }
        if status.AlertSent? {
          break;
        }
        i := i + 1;
      }
      rescheduled := true;
    }
  }
}
