# Whale-alert bot: a Dafny model of its decision core

The bot polls four EVM chains (Ethereum, Arbitrum, Polygon, BSC) for ERC-20
`Transfer` logs in the last six blocks. It resolves each token's symbol,
decimals and USD price through a process-wide cache, which asks a price
provider whenever an entry is missing or five minutes old. It drops transfers
that carry no data, have no price, are worth less than $10,000 or move a
blacklisted token. It classifies what is left as "bought" (the sender is a
known DEX router) or "received", and posts at most one alert per cycle to a chat: the first one it delivers.
A cycle where nothing qualifies, or where a poll fails, posts none.

The model covers that core, one module per concern:

- `Text`: the ASCII case mapping applied to symbols and addresses, and the
  `short` address abbreviator, which is defined but never called.
- `Config`: the chains in their fixed order, the router set, the blacklist,
  and the platform map with its `"ethereum"` fallback.
- `Tokens`: `getTokenInfo` as the function `Resolve`. It takes the cache, the
  clock reading and the provider's answer (an `Option`), and returns the info
  together with the new cache.
- `Filter`: the skip rules after the token lookup, in source order, plus the
  classification (`Decide`). Value scaling uses exact `real` division.
- `Scan`: one log (`LogStep`), the walk over a chain's logs that stops after
  the first delivered alert (`ChainRun`, `ChainScan`), and the walk over the
  chains (`CycleRun`). Lemmas prove the early exits, that failures do not stop
  the walk, and that the first chain or log to act decides the outcome.
- `Bot`: the class `WhaleBot`. Its fields are the token cache and the messages
  sent. `GetTokenInfo` updates the cache in place. `ProcessChain` and `Loop`
  are loops with early exit. All three are proved equal to the `Tokens` and
  `Scan` functions. `Loop` sends at most one
  message per cycle.

The behaviour modelled is that of this code, including where a fuller
whale-alert design would act differently:

- The blacklist applies unconditionally. Transfers whose sender is a DEX
  router get no exemption from it (`Filter.BlacklistIgnoresSender`,
  `Filter.BlacklistedRouterTransferSkipped`).
- The threshold is the fixed literal 10000. There are no subscribers, no
  per-subscriber thresholds and no personal block-lists. There is one chat.
- `loop` does not catch a rejection from `processChain`. A failed poll
  (connection, block number or log request) ends the cycle before
  `setTimeout` is reached, so the bot does not go on to the next chain or the
  next cycle. The model reports this as `Halted` and `rescheduled == false`.
- The decimals default to 18 when the provider's field is absent and also
  when it is 0, because the code uses a falsy `||`.

## Model

| member | source | states |
|---|---|---|
| Text.ToUpper | main.js:59 | the symbol keeps its length, contains no lower-case letter, and each character is either kept or is the upper case of the original |
| Text.ToLower | main.js:92 | the address keeps its length, contains no upper-case letter, and each character is either kept or is the lower case of the original |
| Text.ToLowerIgnoresCase | main.js:92 | two addresses that differ only in letter case lower-case to the same key, so checksummed and plain spellings are looked up alike |
| Text.Short | main.js:47 | the abbreviation is the first six characters, "...", then the last four, with JavaScript `slice` clamping for strings shorter than that |
| Text.ShortAddress | main.js:47 | a 42-character `0x` address abbreviates to 13 characters that keep "0x", the next four digits and the last four |
| Config.PlatformId | main.js:54 | a mapped chain name gets its own platform id; any other name gets "ethereum"; the result is always one of the four ids |
| Config.ChainPlatforms | main.js:39-44 | each of the four polled chains has a mapped platform, never the fallback, and the four ids are distinct |
| Config.ChainOrder | main.js:9-14 | the chains are visited in the order eth, arb, polygon, bsc |
| Tokens.PriceOf | main.js:61 | the price is the provider's USD price, or 0 when it is absent |
| Tokens.DecimalsFor | main.js:60 | decimals are the provider's per-platform value unless it is absent or 0, in which case they are 18; never 0 |
| Tokens.Normalise | main.js:58-63 | a provider answer yields info exactly when it has a symbol; that info is stamped `now`, has an upper-cased symbol and non-zero decimals |
| Tokens.Resolve | main.js:49-69 | only the looked-up key may change; a changed cache holds the returned info, stamped `now`; a valid cache (every entry stamped, non-zero decimals, upper-case symbol) stays valid |
| Tokens.FreshEntryServed | main.js:50-52 | (with the freshness test `IsFresh`) an entry younger than 300000 ms is returned unchanged, the cache is untouched, and the result does not depend on the provider or chain name |
| Tokens.FailureReturnsPlaceholder | main.js:66-67 | a failed request, or an answer without a symbol, returns {UNKNOWN, 18, 0} and leaves the cache exactly as before |
| Tokens.SuccessStoresInfo | main.js:58-65 | on success the cache becomes the old cache with only this key set to the returned info: upper-cased symbol, defaulted decimals and price, timestamp `now` |
| Tokens.PlaceholderNeverCached | main.js:64-67 | the placeholder never appears in a valid cache after any lookup |
| Tokens.StoredInfoFreshForFiveMinutes | main.js:51-52 | an info stored at t is served from the cache, for any chain and without the provider, until t + 300000 ms, after which it is stale |
| Tokens.MissingFieldsDefault | main.js:60-61 | an answer without a price gives price 0; one without decimal places for the platform gives 18 |
| Filter.Pow10 | main.js:99 | the scaling divisor 10^decimals is at least 1, so the division that scales the raw value is defined |
| Filter.Amount | main.js:99 | `formatUnits` as exact division: the amount is non-negative and times 10^decimals gives back the raw value |
| Filter.ScaledAmount | main.js:99 | a raw value of k whole tokens scales back to exactly k |
| Filter.Classify | main.js:109-111 | the action is "bought" exactly when the lower-cased sender is a DEX router, otherwise "received" |
| Filter.Decide | main.js:97-111 | a transfer passes iff the price is non-zero, the USD value (`UsdValue`, amount times price) is at least 10000 and the token is not blacklisted; the skip reason is the first failing rule in source order; a pass carries the scaled amount, the USD value and the sender's classification |
| Filter.BlacklistIgnoresSender | main.js:104-111 | a blacklisted token is skipped even when sent by a router; the sender changes only the action, never whether a transfer passes |
| Filter.ExactlyThresholdPasses | main.js:99-101 | 1,000,000 whole tokens at $0.01 from a non-router are worth exactly $10,000 and pass as "received" |
| Filter.BlacklistedRouterTransferSkipped | main.js:104-107 | that same transfer of a blacklisted token from a router is skipped as blacklisted |
| Filter.JustBelowThresholdSkipped | main.js:101 | one raw unit less is skipped as below the threshold |
| Scan.LogStep | main.js:82-131 | a log is `NoData` iff `HasNoData` holds of its data, and `Undecodable` iff it has data but fails to decode; both leave the cache alone; otherwise the cache is the lookup's, the log is `Filtered` with exactly `Decide`'s skip reason, or its alert carries the chain, the lower-cased token address, the looked-up symbol and `Decide`'s action, amount and USD value ("bought" iff the lower-cased sender is a router), and is sent iff delivery succeeds |
| Scan.ChainRun | main.js:81-134 | the walk over logs never rejects, any alert it returns qualifies for its chain, and it keeps the cache valid |
| Scan.ChainScan | main.js:71-134 | `processChain` rejects exactly when the poll fails, and then leaves the cache untouched; otherwise its result is the walk over the fetched logs, so the first-sent lemmas apply; any alert it sends qualifies |
| Scan.Settle | main.js:140-141 | a chain's rejection halts the cycle naming that chain, a false result lets it go on (`Quiet`), and a sent alert ends it with that alert; the cache is passed on |
| Scan.CycleRun | main.js:137-145 | a cycle's alert qualifies for one of the chains; a halted cycle names a chain whose poll failed; the cache stays valid |
| Scan.ChainRunResumes | main.js:129-131 | after logs that sent nothing, the walk continues over the rest from the cache they left |
| Scan.FailedLogDoesNotStopScan | main.js:129-131 | a log whose decoding or sending throws is skipped and the walk continues with the next log |
| Scan.ChainRunStopsAfterAlert | main.js:128 | once an alert is sent, the later logs are never looked at |
| Scan.ChainRunStopsAtFirstSent | main.js:81-128 | when log k is the first sent, `processChain` returns true with log k's alert and cache, as if the logs ended at k |
| Scan.ChainRunAlertHasFirstSent | main.js:81-134 | when `processChain` returns true, some log was the first to be sent and its alert is the one returned |
| Scan.CycleRunResumes | main.js:139-142 | after chains that returned false, the cycle continues with the next chain from the cache they left |
| Scan.CycleSettlesAtFirstActiveChain | main.js:139-142 | the first chain, in order, that does not return false decides the cycle: its rejection halts it, or its alert ends it |
| Scan.CycleHasSettlingChain | main.js:139-142 | a cycle that halted or alerted was decided by such a first chain |
| Scan.UnpricedTokenNeverAlerts | main.js:97 | a token the provider returns no price for is never alerted, whatever its value and sender |
| Bot.WhaleBot.constructor | main.js:46 | the bot starts with an empty token cache and no messages sent |
| Bot.WhaleBot.GetTokenInfo | main.js:49-69 | returns and stores exactly what `Tokens.Resolve` gives for the old cache, and sends nothing |
| Bot.WhaleBot.ProcessChain | main.js:71-135 | its loop leaves the cache and status given by `Scan.ChainScan`, and appends exactly the one alert it returns true for |
| Bot.WhaleBot.Loop | main.js:137-145 | its loop leaves the cache given by `Scan.CycleRun`; it reschedules unless a chain rejected; it appends at most one message per cycle, the cycle's alert |

## Left out

- RPC access (`WebSocketProvider`, `getBlockNumber`, `getLogs`, the six-block window, the topic filter) is I/O. A chain's poll is an input: `Unreachable` or the list of fetched logs.
- ABI decoding with `parseLog` is a foreign library call. A log carries its decoded `from`, `to` and `value`, or `None` when decoding throws.
- The HTTP request to the price provider, including its URL, is I/O. Its answer for this lookup is an `Option<Response>` parameter.
- `sendMessage` is transport. Delivery success is an input. The Markdown text, `toFixed`, `toLocaleString` and the Uniswap link are formatting of the `Alert` fields and are not modelled.
- `Date.now()` is a clock. Each lookup gets its own `now` as an input.
- `setTimeout` rescheduling is a timer, so one cycle is modelled. `Loop` returns whether the next cycle would be scheduled.
- `dotenv`, the bot's construction and `console` logging are environment and logging.
- Filter.Amount: `Number(formatUnits(...))` and `amount * price` are IEEE doubles in the source. The model uses exact reals, so double rounding right at the $10,000 boundary is not captured.
- Text.ToUpper: only ASCII letters are mapped. JavaScript maps all of Unicode, and some mappings change length (for example "ß" becomes "SS").
- Text.ToLower: only ASCII letters are mapped, which covers hex addresses.
- Tokens.Response: `decimal_place` is modelled as a natural number. Negative, fractional, NaN or non-numeric values, and a NaN price, are not modelled.
- Config.PlatformId: a chain name that matches an inherited object property (such as "constructor") would bypass the fallback in JavaScript. Only the four chain names are ever passed.
- Transfer values are unbounded naturals. The uint256 bound is not modelled.
- Per-subscriber thresholds, personal block-lists, endpoint overrides, the exhaustive per-subscriber mode, explorer links and broadcast mirroring are not in this file.
- The WebSocket providers are never closed, which leaks connections. Resources are not modelled.
