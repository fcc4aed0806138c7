/**
 * One polling cycle as functions of its inputs: the per-log step of
 * `processChain`, the walk over a chain's logs that stops after the first
 * delivered alert, and the walk over the chains that stops at the first chain
 * that alerted.
 */
module Scan {
  import opened Wrappers
  import opened Text
  import opened Config
  import opened Tokens
  import opened Filter

  /** The decoded `Transfer(from, to, value)` arguments of a log. */
  datatype Transfer = Transfer(from: string, to: string, value: nat)

  /** A fetched log: the emitting token contract, the data payload, and its decoding (`None` when `parseLog` fails). */
  datatype RawLog = RawLog(address: string, data: string, decoded: Option<Transfer>)

  /**
   * What the outside world does while one log is handled: the clock reading
   * inside `getTokenInfo`, the price provider's answer, and whether
   * `sendMessage` succeeds.
   */
  datatype Step = Step(now: int, fetched: Option<Response>, delivered: bool)

  datatype LogInput = LogInput(log: RawLog, env: Step)

  /** What one chain's RPC endpoint gives: a failure (the connection, block number or log request rejects) or the logs. */
  datatype ChainInput = Unreachable | Polled(logs: seq<LogInput>)

  /** The content of an alert message and its buy link. */
  datatype Alert = Alert(chainName: string, tokenAddress: string, symbol: string, action: Action,
                         amount: real, usdValue: real)

  /** How a single log ends: skipped by a rule, a caught exception (decode or delivery), or an alert sent. */
  datatype LogOutcome =
    | NoData
    | Undecodable
    | Filtered(reason: SkipReason)
    | SendFailed(alert: Alert)
    | Sent(alert: Alert)

  datatype StepResult = StepResult(outcome: LogOutcome, cache: Cache)

  /** How `processChain` ends: it rejects, returns false, or returns true after sending `alert`. */
  datatype ChainStatus = Rejected | NoAlert | AlertSent(alert: Alert)

  datatype ChainResult = ChainResult(status: ChainStatus, cache: Cache)

  /** How a cycle of `loop` ends: halted by a rejected chain, with no alert, or with one alert. */
  datatype CycleStatus = Halted(chainKey: string) | Quiet | Alerted(alert: Alert)

  datatype CycleResult = CycleResult(status: CycleStatus, cache: Cache)

  /** An alert this bot may send: from the named chain, worth at least the threshold, not blacklisted. */
  predicate Qualifies(a: Alert, chainName: string) {
    a.chainName == chainName && a.usdValue >= Threshold && a.tokenAddress !in Blacklist
  }

  /**
   * One iteration of the loop in `processChain`: the data check, decoding, the
   * token lookup (which may update the cache), the filter, and the send.
   */
  function LogStep(c: Cache, chainName: string, input: LogInput): (r: StepResult)
    ensures (HasNoData(input.log.data) || input.log.decoded.None?) ==> r.cache == c
    ensures r.outcome.Sent? ==> Qualifies(r.outcome.alert, chainName) && input.env.delivered
    ensures r.outcome.Sent? ==> r.outcome.alert.tokenAddress == ToLower(input.log.address)
    ensures r.outcome.SendFailed? ==> !input.env.delivered
    ensures r.outcome == NoData <==> HasNoData(input.log.data)
    ensures r.outcome == Undecodable <==> !HasNoData(input.log.data) && input.log.decoded.None?
    ensures !HasNoData(input.log.data) && input.log.decoded.Some? ==>
              (var tokenAddress := ToLower(input.log.address);
               var lookup := Resolve(c, tokenAddress, chainName, input.env.now, input.env.fetched);
               var t := input.log.decoded.value;
               var d := Decide(tokenAddress, t.from, t.value, lookup.info);
               && r.cache == lookup.cache
               && (r.outcome.Filtered? <==> d.Skip?)
               && (r.outcome.Filtered? ==> d == Skip(r.outcome.reason))
               && (r.outcome.Sent? || r.outcome.SendFailed? <==> d.Pass?)
               && (r.outcome.Sent? || r.outcome.SendFailed? ==>
                     && r.outcome.alert == Alert(chainName, tokenAddress, lookup.info.symbol, d.action, d.amount, d.usdValue)
                     && (r.outcome.alert.action == Bought <==> ToLower(t.from) in DexRouters)))
    ensures CacheValid(c) ==> CacheValid(r.cache)
  {
    var log := input.log;
    if HasNoData(log.data) then StepResult(NoData, c)
    else if log.decoded.None? then StepResult(Undecodable, c)
    else
      var t := log.decoded.value;
      var tokenAddress := ToLower(log.address);
      var lookup := Resolve(c, tokenAddress, chainName, input.env.now, input.env.fetched);
      match Decide(tokenAddress, t.from, t.value, lookup.info)
      case Skip(reason) => StepResult(Filtered(reason), lookup.cache)
      case Pass(action, amount, usdValue) =>
        var alert := Alert(chainName, tokenAddress, lookup.info.symbol, action, amount, usdValue);
        if input.env.delivered then StepResult(Sent(alert), lookup.cache)
        else StepResult(SendFailed(alert), lookup.cache)
  }

  /** The loop of `processChain` over fetched logs: every log in order until the first alert is sent. */
  function ChainRun(c: Cache, chainName: string, inputs: seq<LogInput>): (r: ChainResult)
    ensures r.status != Rejected
    ensures r.status.AlertSent? ==> Qualifies(r.status.alert, chainName)
    ensures CacheValid(c) ==> CacheValid(r.cache)
    decreases |inputs|
  {
    if inputs == [] then ChainResult(NoAlert, c)
    else
      var step := LogStep(c, chainName, inputs[0]);
      if step.outcome.Sent? then ChainResult(AlertSent(step.outcome.alert), step.cache)
      else ChainRun(step.cache, chainName, inputs[1..])
  }

  /** `processChain`: a failed poll rejects with the cache untouched; otherwise the logs are walked. */
  function ChainScan(c: Cache, chain: Chain, input: ChainInput): (r: ChainResult)
    ensures input.Unreachable? <==> r.status.Rejected?
    ensures input.Unreachable? ==> r.cache == c
    ensures r.status.AlertSent? ==> Qualifies(r.status.alert, chain.name)
    ensures input.Polled? ==> r == ChainRun(c, chain.name, input.logs)
    ensures CacheValid(c) ==> CacheValid(r.cache)
  {
    match input
    case Unreachable => ChainResult(Rejected, c)
    case Polled(logs) => ChainRun(c, chain.name, logs)
  }

  /** What one chain's outcome makes of the cycle: halt, stop with its alert, or go on (`Quiet`). */
  function Settle(chain: Chain, r: ChainResult): (cr: CycleResult)
    ensures cr.cache == r.cache
    ensures cr.status.Halted? <==> r.status.Rejected?
    ensures cr.status.Halted? ==> cr.status.chainKey == chain.key
    ensures cr.status.Quiet? <==> r.status.NoAlert?
    ensures r.status.AlertSent? ==> cr.status == Alerted(r.status.alert)
  {
    match r.status
    case Rejected => CycleResult(Halted(chain.key), r.cache)
    case NoAlert => CycleResult(Quiet, r.cache)
    case AlertSent(a) => CycleResult(Alerted(a), r.cache)
  }

  /** `loop`: the chains in order until one rejects or one returns true. */
  function CycleRun(c: Cache, chains: seq<Chain>, inputs: seq<ChainInput>): (r: CycleResult)
    requires |inputs| == |chains|
    ensures r.status.Alerted? ==> exists k :: 0 <= k < |chains| && Qualifies(r.status.alert, chains[k].name)
    ensures r.status.Halted? ==> exists k :: 0 <= k < |chains| && inputs[k].Unreachable? && r.status.chainKey == chains[k].key
    ensures CacheValid(c) ==> CacheValid(r.cache)
    decreases |chains|
  {
    if chains == [] then CycleResult(Quiet, c)
    else
      var first := ChainScan(c, chains[0], inputs[0]);
      if first.status.NoAlert? then
        var rest := CycleRun(first.cache, chains[1..], inputs[1..]);
        assert rest.status.Alerted? ==> exists k :: 1 <= k < |chains| && Qualifies(rest.status.alert, chains[k].name) by {
          if rest.status.Alerted? {
            var k :| 0 <= k < |chains[1..]| && Qualifies(rest.status.alert, chains[1..][k].name);
            assert chains[1..][k] == chains[k + 1];
          }
        }
        assert rest.status.Halted? ==> exists k :: 1 <= k < |chains| && inputs[k].Unreachable? && rest.status.chainKey == chains[k].key by {
          if rest.status.Halted? {
            var k :| 0 <= k < |chains[1..]| && inputs[1..][k].Unreachable? && rest.status.chainKey == chains[1..][k].key;
            assert chains[1..][k] == chains[k + 1] && inputs[1..][k] == inputs[k + 1];
          }
        }
        rest
      else Settle(chains[0], first)
  }

  // ---- The walk over logs ----

  /** After a prefix of logs that sent nothing, the walk goes on from the cache that prefix left: no failed or skipped log stops it. */
  lemma {:induction false} ChainRunResumes(c: Cache, chainName: string, xs: seq<LogInput>, ys: seq<LogInput>)
    requires ChainRun(c, chainName, xs).status.NoAlert?
    ensures ChainRun(c, chainName, xs + ys) == ChainRun(ChainRun(c, chainName, xs).cache, chainName, ys)
    decreases |xs|
  {
    if xs == [] {
      assert xs + ys == ys;
    } else {
      var step := LogStep(c, chainName, xs[0]);
      assert (xs + ys)[0] == xs[0];
      assert (xs + ys)[1..] == xs[1..] + ys;
      ChainRunResumes(step.cache, chainName, xs[1..], ys);
    }
  }

  /**
   * A log whose decoding or delivery throws is caught: the walk continues with
   * the next log, from the cache the failed log left.
   */
  lemma FailedLogDoesNotStopScan(c: Cache, chainName: string, failed: LogInput, rest: seq<LogInput>)
    requires LogStep(c, chainName, failed).outcome.Undecodable? || LogStep(c, chainName, failed).outcome.SendFailed?
    ensures ChainRun(c, chainName, [failed] + rest) == ChainRun(LogStep(c, chainName, failed).cache, chainName, rest)
  {
  }

  /** Once an alert is sent, the logs after it are never looked at. */
  lemma {:induction false} ChainRunStopsAfterAlert(c: Cache, chainName: string, xs: seq<LogInput>, ys: seq<LogInput>)
    requires ChainRun(c, chainName, xs).status.AlertSent?
    ensures ChainRun(c, chainName, xs + ys) == ChainRun(c, chainName, xs)
    decreases |xs|
  {
    var step := LogStep(c, chainName, xs[0]);
    assert (xs + ys)[0] == xs[0];
    if !step.outcome.Sent? {
      assert (xs + ys)[1..] == xs[1..] + ys;
      ChainRunStopsAfterAlert(step.cache, chainName, xs[1..], ys);
    }
  }

  /** Log `k` is the first to be sent: the logs before it sent nothing and it is delivered. */
  predicate SentFirstAt(c: Cache, chainName: string, inputs: seq<LogInput>, k: nat) {
    && k < |inputs|
    && ChainRun(c, chainName, inputs[..k]).status.NoAlert?
    && LogStep(ChainRun(c, chainName, inputs[..k]).cache, chainName, inputs[k]).outcome.Sent?
  }

  /**
   * When log `k` is the first to be sent, `processChain` returns true with
   * that log's alert and stops there: its result is that of the logs up to `k`.
   */
  lemma {:induction false} ChainRunStopsAtFirstSent(c: Cache, chainName: string, inputs: seq<LogInput>, k: nat)
    requires SentFirstAt(c, chainName, inputs, k)
    ensures var step := LogStep(ChainRun(c, chainName, inputs[..k]).cache, chainName, inputs[k]);
      && ChainRun(c, chainName, inputs) == ChainResult(AlertSent(step.outcome.alert), step.cache)
      && ChainRun(c, chainName, inputs) == ChainRun(c, chainName, inputs[..k + 1])
  {
    ChainRunResumes(c, chainName, inputs[..k], inputs[k..]);
    assert inputs[..k] + inputs[k..] == inputs;
    assert inputs[k..][0] == inputs[k];
    ChainRunResumes(c, chainName, inputs[..k], [inputs[k]]);
    assert inputs[..k + 1] == inputs[..k] + [inputs[k]];
  }

  /** When `processChain` returns true, some log was the first to be sent, and its alert is the one returned. */
  lemma {:induction false} ChainRunAlertHasFirstSent(c: Cache, chainName: string, inputs: seq<LogInput>)
    ensures ChainRun(c, chainName, inputs).status.AlertSent? ==>
      exists k: nat :: SentFirstAt(c, chainName, inputs, k)
        && LogStep(ChainRun(c, chainName, inputs[..k]).cache, chainName, inputs[k]).outcome
           == Sent(ChainRun(c, chainName, inputs).status.alert)
    decreases |inputs|
  {
    var r := ChainRun(c, chainName, inputs);
    if r.status.AlertSent? {
      var step := LogStep(c, chainName, inputs[0]);
      assert inputs[..0] == [];
      if step.outcome.Sent? {
        assert SentFirstAt(c, chainName, inputs, 0);
      } else {
        var rest := inputs[1..];
        ChainRunAlertHasFirstSent(step.cache, chainName, rest);
        var k: nat :| SentFirstAt(step.cache, chainName, rest, k)
          && LogStep(ChainRun(step.cache, chainName, rest[..k]).cache, chainName, rest[k]).outcome
             == Sent(r.status.alert);
        assert inputs[..k + 1][0] == inputs[0];
        assert inputs[..k + 1][1..] == rest[..k];
        assert ChainRun(c, chainName, inputs[..k + 1]) == ChainRun(step.cache, chainName, rest[..k]);
        assert rest[k] == inputs[k + 1];
        assert SentFirstAt(c, chainName, inputs, k + 1);
      }
    }
  }

  // ---- The walk over chains ----

  /** After a prefix of chains that sent nothing and did not reject, the cycle goes on with the next chain. */
  lemma {:induction false} CycleRunResumes(c: Cache, chains: seq<Chain>, inputs: seq<ChainInput>,
                                           moreChains: seq<Chain>, moreInputs: seq<ChainInput>)
    requires |inputs| == |chains| && |moreInputs| == |moreChains|
    requires CycleRun(c, chains, inputs).status.Quiet?
    ensures CycleRun(c, chains + moreChains, inputs + moreInputs)
         == CycleRun(CycleRun(c, chains, inputs).cache, moreChains, moreInputs)
    decreases |chains|
  {
    if chains == [] {
      assert chains + moreChains == moreChains && inputs + moreInputs == moreInputs;
    } else {
      var first := ChainScan(c, chains[0], inputs[0]);
      assert (chains + moreChains)[0] == chains[0] && (inputs + moreInputs)[0] == inputs[0];
      assert (chains + moreChains)[1..] == chains[1..] + moreChains;
      assert (inputs + moreInputs)[1..] == inputs[1..] + moreInputs;
      CycleRunResumes(first.cache, chains[1..], inputs[1..], moreChains, moreInputs);
    }
  }

  /**
   * The cycle's outcome is decided by the first chain, in declaration order,
   * that does not return false: its rejection halts the loop, its alert is the
   * cycle's only alert, and no later chain is polled.
   */
  lemma {:induction false} CycleSettlesAtFirstActiveChain(c: Cache, chains: seq<Chain>, inputs: seq<ChainInput>, k: nat)
    requires |inputs| == |chains| && k < |chains|
    requires CycleRun(c, chains[..k], inputs[..k]).status.Quiet?
    requires !ChainScan(CycleRun(c, chains[..k], inputs[..k]).cache, chains[k], inputs[k]).status.NoAlert?
    ensures CycleRun(c, chains, inputs)
         == Settle(chains[k], ChainScan(CycleRun(c, chains[..k], inputs[..k]).cache, chains[k], inputs[k]))
  {
    CycleRunResumes(c, chains[..k], inputs[..k], chains[k..], inputs[k..]);
    assert chains[..k] + chains[k..] == chains;
    assert inputs[..k] + inputs[k..] == inputs;
    assert chains[k..][0] == chains[k] && inputs[k..][0] == inputs[k];
  }

  /** Chain `k` settles the cycle: every chain before it returned false, and it did not. */
  predicate SettlesAt(c: Cache, chains: seq<Chain>, inputs: seq<ChainInput>, k: nat)
    requires |inputs| == |chains|
  {
    && k < |chains|
    && CycleRun(c, chains[..k], inputs[..k]).status.Quiet?
    && !ChainScan(CycleRun(c, chains[..k], inputs[..k]).cache, chains[k], inputs[k]).status.NoAlert?
  }

  /** A cycle that halted or alerted was settled by some chain whose predecessors all returned false. */
  lemma {:induction false} CycleHasSettlingChain(c: Cache, chains: seq<Chain>, inputs: seq<ChainInput>)
    requires |inputs| == |chains|
    ensures !CycleRun(c, chains, inputs).status.Quiet? ==> exists k: nat :: SettlesAt(c, chains, inputs, k)
    decreases |chains|
  {
    if chains != [] && !CycleRun(c, chains, inputs).status.Quiet? {
      var first := ChainScan(c, chains[0], inputs[0]);
      assert chains[..0] == [] && inputs[..0] == [];
      if first.status.NoAlert? {
        var restChains, restInputs := chains[1..], inputs[1..];
        CycleHasSettlingChain(first.cache, restChains, restInputs);
        var k: nat :| SettlesAt(first.cache, restChains, restInputs, k);
        assert chains[..k + 1][0] == chains[0] && inputs[..k + 1][0] == inputs[0];
        assert chains[..k + 1][1..] == restChains[..k] && inputs[..k + 1][1..] == restInputs[..k];
        assert CycleRun(c, chains[..k + 1], inputs[..k + 1]) == CycleRun(first.cache, restChains[..k], restInputs[..k]);
        assert restChains[k] == chains[k + 1] && restInputs[k] == inputs[k + 1];
        assert SettlesAt(c, chains, inputs, k + 1);
      } else {
        assert SettlesAt(c, chains, inputs, 0);
      }
    }
  }

  /** A log whose token has no price on the provider never alerts, whatever its value and sender. */
  lemma UnpricedTokenNeverAlerts(c: Cache, chainName: string, input: LogInput, resp: Response)
    requires !IsFresh(c, ToLower(input.log.address), input.env.now)
    requires input.env.fetched == Some(resp) && resp.usdPrice.None?
    ensures LogStep(c, chainName, input).outcome == Filtered(NoPrice)
            || LogStep(c, chainName, input).outcome in {NoData, Undecodable}
  {
  }
}
