/**
 * The per-log skip rules and the classification of a surviving transfer, in
 * the order `processChain` applies them: no data, no price, a USD value below
 * 10000, a blacklisted token; then "bought" when the sender is a DEX router,
 * "received" otherwise.
 */
module Filter {
  import opened Text
  import opened Config
  import opened Tokens

  /** The fixed alert threshold, in USD. */
  const Threshold: real := 10000.0

  /** The two verbs of an alert: "купил" (bought) and "получил" (received). */
  datatype Action = Bought | Received

  datatype SkipReason = NoPrice | BelowThreshold | Blacklisted

  /** A skipped transfer, or one that passes every rule, with its scaled amount and USD value. */
  datatype Verdict = Skip(reason: SkipReason) | Pass(action: Action, amount: real, usdValue: real)

  /** The `!log.data || log.data === "0x"` test: the log carries no value payload. */
  predicate HasNoData(data: string) {
    data == "" || data == "0x"
  }

  /** 10 to the power `n`. */
  function Pow10(n: nat): (p: nat)
    ensures p >= 1
  {
    if n == 0 then 1 else 10 * Pow10(n - 1)
  }

  /** `formatUnits(value, decimals)` as an exact rational. */
  function Amount(value: nat, decimals: nat): (r: real)
    ensures r >= 0.0
    ensures r * Pow10(decimals) as real == value as real
  {
    value as real / Pow10(decimals) as real
  }

  /** The transfer's value in USD. */
  function UsdValue(value: nat, decimals: nat, price: real): real {
    Amount(value, decimals) * price
  }

  /** A raw value of `k` whole tokens scales back to exactly `k`. */
  lemma ScaledAmount(k: nat, decimals: nat)
    ensures Amount(k * Pow10(decimals), decimals) == k as real
  {
  }

  /** The action: "bought" exactly when the lower-cased sender is a known DEX router. */
  function Classify(from: string): (a: Action)
    ensures a == Bought <==> ToLower(from) in DexRouters
  {
    if ToLower(from) in DexRouters then Bought else Received
  }

  /**
   * The rules after the token info is known, for a token address already
   * lower-cased: a zero price, then a USD value below the threshold, then the
   * blacklist; a transfer that passes them all is classified by its sender.
   */
  function Decide(tokenAddress: string, from: string, value: nat, info: TokenInfo): (v: Verdict)
    ensures v.Pass? <==> info.price != 0.0 && UsdValue(value, info.decimals, info.price) >= Threshold
                         && tokenAddress !in Blacklist
    ensures v == Skip(NoPrice) <==> info.price == 0.0
    ensures v == Skip(BelowThreshold) <==> info.price != 0.0 && UsdValue(value, info.decimals, info.price) < Threshold
    ensures v.Pass? ==> v.usdValue >= Threshold && v.usdValue == v.amount * info.price
    ensures v.Pass? ==> v.amount == Amount(value, info.decimals)
    ensures v.Pass? ==> (v.action == Bought <==> ToLower(from) in DexRouters)
  {
    if info.price == 0.0 then Skip(NoPrice)
    else
      var amount := Amount(value, info.decimals);
      var usdValue := amount * info.price;
      if usdValue < Threshold then Skip(BelowThreshold)
      else if tokenAddress in Blacklist then Skip(Blacklisted)
      else Pass(Classify(from), amount, usdValue)
  }

  /**
   * The blacklist holds whatever the sender: a blacklisted token is skipped
   * even when it comes from a DEX router, and the sender never changes whether
   * a transfer passes, only its action.
   */
  lemma BlacklistIgnoresSender(tokenAddress: string, from: string, other: string, value: nat, info: TokenInfo)
    ensures tokenAddress in Blacklist ==> Decide(tokenAddress, from, value, info).Skip?
    ensures Decide(tokenAddress, from, value, info).Skip? <==> Decide(tokenAddress, other, value, info).Skip?
    ensures Decide(tokenAddress, from, value, info).Skip? ==>
              Decide(tokenAddress, from, value, info) == Decide(tokenAddress, other, value, info)
  {
  }

  /**
   * A transfer of one million whole tokens at $0.01, from an address that is
   * not a router, is worth exactly $10,000 and passes as "received".
   */
  lemma ExactlyThresholdPasses(tokenAddress: string, from: string, info: TokenInfo)
    requires info.price == 0.01
    requires tokenAddress !in Blacklist && ToLower(from) !in DexRouters
    ensures Decide(tokenAddress, from, 1000000 * Pow10(info.decimals), info) == Pass(Received, 1000000.0, 10000.0)
  {
    ScaledAmount(1000000, info.decimals);
  }

  /**
   * The same transfer of a blacklisted token sent by a router is skipped as
   * blacklisted: there is no router exemption.
   */
  lemma BlacklistedRouterTransferSkipped(tokenAddress: string, from: string, info: TokenInfo)
    requires info.price == 0.01
    requires tokenAddress in Blacklist && ToLower(from) in DexRouters
    ensures Decide(tokenAddress, from, 1000000 * Pow10(info.decimals), info) == Skip(Blacklisted)
  {
  }

  /** One raw unit less than $10,000 worth is skipped as below the threshold. */
  lemma JustBelowThresholdSkipped(tokenAddress: string, from: string, info: TokenInfo)
    requires info.price == 0.01
    ensures Decide(tokenAddress, from, 1000000 * Pow10(info.decimals) - 1, info) == Skip(BelowThreshold)
  {
  }
}
