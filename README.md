# Dice bet pipeline, modelled in Dafny

This project models the client-side bet pipeline of a Klever dice dApp (a Next.js page). The page
sends a wager to a smart contract. It then polls the Klever indexer until the transaction is
confirmed, takes the contract's return payload from the event log, maps the decoded `Bet` record to
the shape the page displays, and caches that record in `localStorage` under `lastBet@{address}`.

Modules, one per source file:

- `BetTypes` (`bet_types.dfy`) holds the `BetType` enum (numeric, as in TypeScript), `RawBet` and `FormattedBet`.
- `Abi` (`abi.dfy`) holds the `Bet` struct and `BetType` enum schema as a constant value.
- `Utils` (`utils.dfy`) holds address shortening, enum/label conversion and the record mapping.
- `TxProcessor` (`tx_processor.dfy`) holds the bounded confirmation poller. It has a retry-loop method, a recursive function `PollFrom` it is proved against, and the all-must-succeed join.
- `Home` (`home.dfy`) holds the page logic. It has the constants, the tab and slider updates, the bet guards, the call data, the event-log scan, the return-value extraction, the last-bet cache, and a `Page` class whose methods update the page state and `localStorage`.
- `Wrappers` (`wrappers.dfy`) holds `Option` and `Result`.

The code the page calls but does not contain is passed in as function-valued parameters.
`Home.Sdk` bundles `encodeABIValue`, `decodeList`, `buildTransaction`, `signTransaction`,
`broadcastTransactions` and base64 encoding. `Home.Json` stands for `JSON.stringify`/`JSON.parse`.
The indexer is an oracle `(url, i) -> Response`: the parsed body answering the i-th attempt of one hash's loop.
The model counts delays instead of sleeping. It runs the per-hash loops one after another; the
source runs them concurrently.

What the code does at its edges:

- The code has no enum-discriminant check. The schema types `bet_type` as `u32`, and `betTypeToString` maps every value other than 0 to `"over"`.
- The code raises no error when no `ReturnData` event exists. The payload stays undefined and goes to the decoder as it is.
- The amount guard rejects only 0 and NaN. Negative stakes are sent.
- A cached value that does not parse makes `JSON.parse` throw. It is not treated as "no cached value".
- `convertBet` copies the multiplier unchanged (src/lib/utils.ts:26); only the display divides it by 100.

## Model

| member | source | states |
|---|---|---|
| BetTypes.EnumDiscriminants | src/@types/bet.ts:9-12 | `Under` is 0 and `Over`, declared without an initialiser, is 1 |
| Abi.BetFieldsMatchRawBet | src/lib/abi.ts:3-26 | the `Bet` struct declares exactly `RawBet`'s five keys, in order |
| Abi.BetFieldTypes | src/lib/abi.ts:7-24 | the four numeric fields are `u32` and `is_winner` is `bool`; `bet_type` is `u32`, not the enum |
| Abi.EnumMatchesBetType | src/lib/abi.ts:28-40 | the schema enum has two variants, UNDER = 0 and OVER = 1, the client's `BetType` numbers |
| Abi.FieldNames | src/lib/abi.ts:5-25 | the names of a struct's fields, one per field, in declaration order |
| Utils.SliceHead | src/lib/utils.ts:10 | `slice(0, n)` yields the first min(n, length) characters, a prefix |
| Utils.SliceTail | src/lib/utils.ts:10 | `slice(-n)` yields the last min(n, length) characters, a suffix |
| Utils.FormatAddress | src/lib/utils.ts:9-11 | for 8 or more characters: 19 characters, first 8 + "..." + last 8; for fewer: the whole address twice around "..." |
| Utils.FormatAddressParts | src/lib/utils.ts:9-11 | the shortened address keeps the original's head and tail around the ellipsis at positions 8-10 |
| Utils.BetTypeToString | src/lib/utils.ts:13-15 | yields "under" exactly for discriminant 0 and "over" for every other number |
| Utils.BetTypeToNumber | src/lib/utils.ts:17-19 | yields `Under` exactly for "under" and `Over` for every other string |
| Utils.NumberStringRoundTrip | src/lib/utils.ts:13-19 | number to label to number is the identity on `Under` and `Over` |
| Utils.StringNumberRoundTrip | src/lib/utils.ts:13-19 | label to number to label is the identity on "under" and "over" |
| Utils.UndeclaredDiscriminantReadsAsOver | src/lib/utils.ts:13-15 | an undeclared discriminant such as 7 is read as "over" and does not round-trip |
| Utils.ConvertBet | src/lib/utils.ts:21-29 | the label comes from `bet_type`; value, dice, multiplier (not divided by 100) and winner flag are copied; no `txHash` |
| Utils.ConvertBetLossless | src/lib/utils.ts:21-29 | for a declared discriminant, the raw record can be read back from the formatted one |
| Utils.ConvertBetToJSON | src/lib/utils.ts:31-33 | same length and order, element i is `convertBet` of input i |
| TxProcessor.TransactionUrl | src/lib/tx-processor.ts:12-14 | the request URL is the provider's API base followed by `/transaction/{hash}?withResults=true` |
| TxProcessor.TransactionUrlInjective | src/lib/tx-processor.ts:13 | different hashes are requested at different URLs of one indexer |
| TxProcessor.PollFrom | src/lib/tx-processor.ts:8-26 | at most `tries` requests; every attempt before the last was a retry followed by a delay; the loop either exhausts the budget with delays = requests, or stops at a data or null body with one delay fewer |
| TxProcessor.PollTransaction | src/lib/tx-processor.ts:7-27 | the retry loop returns exactly the outcome, request count and delay count of the function `Polled`, and waits 2000 ms per delay |
| TxProcessor.FirstResolved | src/lib/tx-processor.ts:18-19 | if attempt k is the first one to end the loop and has no error, its `data` wins after k + 1 requests and k delays |
| TxProcessor.ExhaustedThrowsLastError | src/lib/tx-processor.ts:20-26 | if every attempt errs or is falsy, `tries` requests and `tries` delays are made and the whole last error body is thrown |
| TxProcessor.NoErrorSeenThrowsEmptyString | src/lib/tx-processor.ts:9-26 | with only falsy bodies the initial "" is thrown after `tries` requests |
| TxProcessor.ZeroTries | src/lib/tx-processor.ts:8-26 | with `tries = 0` no request is made and "" is thrown |
| TxProcessor.JoinAll | src/lib/tx-processor.ts:29 | succeeds iff every hash resolved, then with the data in hash order; otherwise fails with the rejection of a hash before which all resolved |
| TxProcessor.Outcomes | src/lib/tx-processor.ts:7 | one loop outcome per hash, in hash order, each for that hash's URL |
| TxProcessor.TransactionsProcessed | src/lib/tx-processor.ts:3-30 | runs every hash's loop (default budget 10) and returns the join of their outcomes |
| Home.HandleTabChange | src/pages/index.tsx:120-130 | "over" sets [5, 98], "under" sets [1, 94], any other string changes nothing |
| Home.IsUnderPicksUnderPreset | src/pages/index.tsx:62 | between the two presets, `min == 1` holds exactly for the "under" limits |
| Home.TabChangeKeepsConsistent | src/pages/index.tsx:56-62 | after any tab change the limits are a preset matching the label, so `isUnder` holds iff the tab is "under" |
| Home.HandleSliderChange | src/pages/index.tsx:132-146 | below min gives min, above max gives max, otherwise the value; the result lies in [min, max] when min <= max |
| Home.SliderChangeIdempotent | src/pages/index.tsx:148-150 | re-running the clamp from the effect does not move a clamped prediction |
| Home.CheckBet | src/pages/index.tsx:152-171 | a missing address is refused first whatever the amount; then zero or NaN is refused; nothing else is |
| Home.NegativeAmountPasses | src/pages/index.tsx:163-171 | a negative amount passes both guards |
| Home.SplitJoin | src/pages/index.tsx:376-379 | splitting `parts.join("@")` on "@" returns the parts when none contains "@" |
| Home.CallData | src/pages/index.tsx:376-391 | before base64 the call data is "bet@" + i32 encoding of the bet type + "@" + u32 encoding of the prediction |
| Home.CallDataFields | src/pages/index.tsx:376-391 | the contract reads back the name "bet" and the two encoded arguments from the call data |
| Home.BaseUnits | src/pages/index.tsx:381 | the KLV call value is the amount times 10^6 |
| Home.BetCall | src/pages/index.tsx:383-389 | the payload targets the configured contract with `scType` 0 and a KLV call value of amount times 10^6 |
| Home.SendBet | src/pages/index.tsx:375-406 | a rejection of build or sign is passed on unchanged; otherwise the result is the broadcast of the signed transaction built from the one bet call and the base64 call data |
| Home.LastReturnDataIsLast | src/pages/index.tsx:359-364 | the payload is `data[0]` of the last "ReturnData" event, undefined if that event has no data |
| Home.NoReturnData | src/pages/index.tsx:359-364 | without a "ReturnData" event the payload stays undefined and no error is raised |
| Home.ScanReturnData | src/pages/index.tsx:359-364 | the loop over the event log computes `LastReturnData` |
| Home.ReturnDataReadsFirstOnly | src/pages/index.tsx:356-357 | the result depends only on the first confirmed transaction |
| Home.ReturnDataIsConvertedFirstRecord | src/pages/index.tsx:366-372 | the result is `convertBet` of the first decoded record with `txHash` set to the testnet explorer link of the transaction hash |
| Home.WithLink | src/pages/index.tsx:369-372 | with a decoded record, its fields are kept and `txHash` is the link; with none, only the link remains |
| Home.GetReturnData | src/pages/index.tsx:355-373 | polls every hash, scans the first transaction's log, decodes and maps, as `ReturnDataOf` specifies |
| Home.PlaceBet | src/pages/index.tsx:173-179 | a send failure becomes the bet's error; otherwise the result is the return data of the broadcast hashes |
| Home.OverFiftyScenario | src/pages/index.tsx:173-179 | an "over" 50 bet of stake 10 confirmed at once with record (1, 50, 72, 198, false) returns that record labelled "over", linked to hash "abc", with call value 10^7 |
| Home.LastBetKeyInjective | src/pages/index.tsx:181 | two accounts with the same cache key are the same account |
| Home.GetLastResults | src/pages/index.tsx:408-412 | null when the key `lastBet@{address}` is absent or holds ""; otherwise the parsed value, or the parse error, which is not caught |
| Home.SaveThenLoad | src/pages/index.tsx:408-412 | loading right after saving for the same account returns the saved value |
| Home.SaveKeepsOtherAccounts | src/pages/index.tsx:181 | saving for one account does not change what another account loads |
| Home.LocalStorage.SetItem | src/pages/index.tsx:181 | the entry for the key is replaced and every other entry is unchanged |
| Home.Page.constructor | src/pages/index.tsx:50-62 | the page starts on "over" with limits [5, 98], prediction 50, amount 0 and no bet |
| Home.Page.RestoreLastBet | src/pages/index.tsx:113-118 | with a connected account the shown bet becomes the cached value or null; a parse error leaves it and is reported |
| Home.Page.SelectTab | src/pages/index.tsx:120-150 | applies the tab change and re-clamps the prediction, keeping label, limits and prediction consistent |
| Home.Page.MoveSlider | src/pages/index.tsx:132-146 | the prediction becomes the clamped slider value and stays within the limits |
| Home.Page.EnterAmount | src/pages/index.tsx:242 | the amount becomes the parsed input number |
| Home.Page.HandleBet | src/pages/index.tsx:152-193 | a refused bet changes nothing and sends nothing; a sent bet ends with `betting` false; on success the shown bet and `localStorage["lastBet@"+address]` come from the same value; on failure neither changes |

## Left out

- Rendering, styling, toasts, `counter.tsx`, `_app.tsx`, `SdkContext.tsx` and `window.d.ts` are not modelled. They are presentation and provider plumbing.
- `connectWallet` (src/pages/index.tsx:69-111) is not modelled. It is wallet-extension I/O, so the page's address is fixed when the page is built.
- `cn` (src/lib/utils.ts:5-7) is not modelled. It wraps CSS class utilities.
- The SDK calls (`encodeABIValue`, `decodeList`, `buildTransaction`, `signTransaction`, `broadcastTransactions`), `Buffer`'s base64, and `JSON.stringify`/`JSON.parse` are oracle parameters. Their byte layouts are not specified.
- The schema is passed to the decoder as the value `Abi.DiceAbi`. The code passes its JSON text.
- `fetch` failures and bodies that are not JSON are not modelled. A `data` object without `transaction.logs.events` is not modelled either; an indexer data body is always a well-formed transaction.
- An object whose `error` field is present but falsy is modelled as a data body. The code returns its `data` field.
- TxProcessor.TransactionsProcessed: `Promise.all` rejects with the first rejection in time, which depends on latency. The model reports the first failing hash in list order.
- TxProcessor.JoinAll: states the first rejection in hash order, where the source promises only some rejection. The order of settlement is not modelled.
- Wall-clock delays and concurrency are not modelled. Each delay is counted in `delays`, and `PollTransaction` reports the time waited as `delays * RetryDelayMs` (2000 ms each).
- The stake `amount * 1e6` is float arithmetic in the code. The model computes it exactly over `real`. Rounding and `Infinity` inputs are not modelled; NaN is.
- The render between `setLimits` and the re-clamping effect is not modelled. `Page.SelectTab` applies both at once.
- JavaScript's `slice` counts UTF-16 code units, while a Dafny `char` is a Unicode scalar value. `Utils.FormatAddress` therefore differs for characters outside the Basic Multilingual Plane; addresses are ASCII.
- Duplicate hashes are not modelled apart: the source polls one URL with two concurrent loops that can see different bodies, while the model gives both loops the same answers.
- `SmartContractCall` has no transaction-kind field: the one call is always of type `TransactionType.SmartContract` (src/pages/index.tsx:397), which the model leaves implicit in `buildTransaction`'s parameter type.
- `Json.parse` yields only page bet values or an error. A stored `"null"` or `"42"` parses without throwing and would then be shown (src/pages/index.tsx:116-117, 411); the model cannot represent such values. The page itself only stores `JSON.stringify` of a bet.
- `localStorage.setItem` exceptions such as a full quota are not modelled.
- `(error as Error).message` is not modelled. The model returns the error value itself as `BetOutcome.Finished(Err(...))`.
