/**
 * The page's non-rendering logic: the prediction limits of the two tabs, slider clamping,
 * the guards and state updates of a bet, the call data sent to the contract, the scan of the
 * event log for the contract's return value, and the last-bet cache in `localStorage`.
 *
 * The wallet SDK, the JSON codec and the indexer are oracles passed in as parameters.
 */
module Home {
  import opened Wrappers
  import opened BetTypes
  import Abi
  import opened Utils
  import opened TxProcessor

  const MinPredictionUnderValue: int := 1
  const MaxPredictionUnderValue: int := 94
  const MinPredictionOverValue: int := 5
  const MaxPredictionOverValue: int := 98

  /** The identifier of the event that carries the contract's return payload. */
  const ReturnDataIdentifier: string := "ReturnData"

  /** The prefix of the explorer link attached to a confirmed bet. */
  const ExplorerTxPrefix: string := "https://testnet.kleverscan.org/transaction/"

  /** The prefix of the `localStorage` key under which an account's last bet is kept. */
  const LastBetKeyPrefix: string := "lastBet@"

  // ---------------------------------------------------------------- tabs and slider

  /** The `[min, max]` pair of the prediction slider. */
  datatype Limits = Limits(min: int, max: int)

  const OverLimits: Limits := Limits(MinPredictionOverValue, MaxPredictionOverValue)
  const UnderLimits: Limits := Limits(MinPredictionUnderValue, MaxPredictionUnderValue)

  /** The tab-dependent part of the page state. */
  datatype Tab = Tab(betType: BetLabel, limits: Limits)

  /** The page tells the tabs apart by the lower limit alone. */
  predicate IsUnder(limits: Limits) {
    limits.min == MinPredictionUnderValue
  }

  /** Between the two presets, the lower limit alone picks out the "under" one. */
  lemma IsUnderPicksUnderPreset(limits: Limits)
    requires limits == OverLimits || limits == UnderLimits
    ensures IsUnder(limits) <==> limits == UnderLimits
    ensures !IsUnder(OverLimits)
  {
  }

  /** The limits are one of the two tab presets, and the one that matches the label. */
  predicate TabConsistent(tab: Tab) {
    && (tab.limits == OverLimits || tab.limits == UnderLimits)
    && (IsUnder(tab.limits) <==> tab.betType == "under")
  }

  /** Selecting "over" or "under" sets the label and its limits; any other value changes nothing. */
  function HandleTabChange(value: string, tab: Tab): (r: Tab)
    ensures value == "over" ==> r == Tab("over", Limits(5, 98))
    ensures value == "under" ==> r == Tab("under", Limits(1, 94))
    ensures value != "over" && value != "under" ==> r == tab
  {
    var afterOver := if value == "over" then Tab("over", OverLimits) else tab;
    if value == "under" then Tab("under", UnderLimits) else afterOver
  }

  /** A tab change keeps the label and the limits in agreement, so `IsUnder` tells the tab. */
  lemma TabChangeKeepsConsistent(value: string, tab: Tab)
    requires TabConsistent(tab)
    ensures TabConsistent(HandleTabChange(value, tab))
    ensures IsUnder(HandleTabChange(value, tab).limits) <==> HandleTabChange(value, tab).betType == "under"
  {
  }

  /** The slider value, clamped to the limits (the lower limit is tested first). */
  function HandleSliderChange(prediction: int, limits: Limits): (r: int)
    ensures prediction < limits.min ==> r == limits.min
    ensures limits.min <= prediction && limits.max < prediction ==> r == limits.max
    ensures limits.min <= prediction <= limits.max ==> r == prediction
    ensures limits.min <= limits.max ==> limits.min <= r <= limits.max
  {
    if prediction < limits.min then limits.min
    else if prediction > limits.max then limits.max
    else prediction
  }

  /** Re-running the clamp on its own result changes nothing. */
  lemma SliderChangeIdempotent(prediction: int, limits: Limits)
    requires limits.min <= limits.max
    ensures HandleSliderChange(HandleSliderChange(prediction, limits), limits)
            == HandleSliderChange(prediction, limits)
  {
  }

  // ---------------------------------------------------------------- amounts and guards

  /** A JavaScript number read from the amount input; infinities are not modelled. */
  datatype JsNumber = NaN | Num(x: real)

  /** `!value`: zero and NaN are falsy. */
  predicate Falsy(n: JsNumber) {
    n == NaN || n == Num(0.0)
  }

  datatype Rejection = WalletMissing | InvalidAmount

  /** The two guards of a bet, in the page's order: the wallet first, then the amount. */
  function CheckBet(address: string, value: JsNumber): (r: Option<Rejection>)
    ensures address == "" ==> r == Some(WalletMissing)
    ensures address != "" ==> (r == Some(InvalidAmount) <==> Falsy(value))
    ensures r == None <==> address != "" && !Falsy(value)
  {
    if address == "" then Some(WalletMissing)
    else if Falsy(value) then Some(InvalidAmount)
    else None
  }

  /** The amount guard rejects only zero and NaN: a negative stake goes through. */
  lemma NegativeAmountPasses(address: string, x: real)
    requires address != "" && x < 0.0
    ensures CheckBet(address, Num(x)) == None
  {
  }

  // ---------------------------------------------------------------- call data

  /** `parts.join(sep)`. */
  function Join(parts: seq<string>, sep: string): string {
    if |parts| == 0 then ""
    else if |parts| == 1 then parts[0]
    else parts[0] + sep + Join(parts[1..], sep)
  }

  /** The pieces of `s` between occurrences of `sep`, as the contract runtime reads call data. */
  function Split(s: string, sep: char): (parts: seq<string>)
    ensures |parts| > 0
  {
    if s == [] then [""]
    else
      var rest := Split(s[1..], sep);
      if s[0] == sep then [""] + rest else [[s[0]] + rest[0]] + rest[1..]
  }

  lemma {:induction false} SplitWithoutSeparator(a: string, sep: char)
    requires sep !in a
    ensures Split(a, sep) == [a]
  {
    if a != [] {
      assert sep !in a[1..];
      SplitWithoutSeparator(a[1..], sep);
      assert [a[0]] + a[1..] == a;
    }
  }

  lemma {:induction false} SplitAfterSeparator(a: string, b: string, sep: char)
    requires sep !in a
    ensures Split(a + [sep] + b, sep) == [a] + Split(b, sep)
  {
    if a == [] {
      assert a + [sep] + b == [sep] + b;
      assert ([sep] + b)[1..] == b;
    } else {
      assert sep !in a[1..];
      SplitAfterSeparator(a[1..], b, sep);
      assert (a + [sep] + b)[1..] == a[1..] + [sep] + b;
      assert [a[0]] + a[1..] == a;
    }
  }

  /** Splitting a join on a separator that no part contains gives the parts back. */
  lemma {:induction false} SplitJoin(parts: seq<string>, sep: char)
    requires |parts| > 0
    requires forall i :: 0 <= i < |parts| ==> sep !in parts[i]
    ensures Split(Join(parts, [sep]), sep) == parts
  {
    if |parts| == 1 {
      SplitWithoutSeparator(parts[0], sep);
    } else {
      SplitAfterSeparator(parts[0], Join(parts[1..], [sep]), sep);
      SplitJoin(parts[1..], sep);
      assert [parts[0]] + parts[1..] == parts;
    }
  }

  /** A smart-contract call of the bet transaction: the contract, `scType` 0 and the KLV call value. */
  datatype SmartContractCall = SmartContractCall(address: string, scType: int, callValueKlv: real)

  datatype UnsignedTx = UnsignedTx(body: string)
  datatype SignedTx = SignedTx(body: string)

  /** The wallet SDK's operations the page uses, none of which is modelled. */
  datatype Sdk = Sdk(
    encodeABIValue: (int, string, bool) -> string,
    decodeList: (Option<string>, string, Abi.Schema) -> Result<seq<RawBet>, string>,
    buildTransaction: (seq<SmartContractCall>, seq<string>) -> Result<UnsignedTx, string>,
    signTransaction: UnsignedTx -> Result<SignedTx, string>,
    broadcastTransactions: seq<SignedTx> -> Result<seq<string>, string>,
    base64: string -> string)

  /** The indexer's API base and the contract address. */
  datatype Config = Config(api: string, scAddress: string)

  function EncI32(sdk: Sdk, x: int): string {
    sdk.encodeABIValue(x, "i32", false)
  }

  function EncU32(sdk: Sdk, x: int): string {
    sdk.encodeABIValue(x, "u32", false)
  }

  /** The call data before base64: the function name and the two encoded arguments, joined by "@". */
  function CallData(sdk: Sdk, betType: int, betValue: int): (d: string)
    ensures d == "bet@" + EncI32(sdk, betType) + "@" + EncU32(sdk, betValue)
  {
    var args := [EncI32(sdk, betType), EncU32(sdk, betValue)];
    var metadata := Join(args, "@");
    assert args[1..] == [EncU32(sdk, betValue)];
    assert Join(args[1..], "@") == args[1];
    assert metadata == args[0] + "@" + args[1];
    assert "bet" + "@" == "bet@";
    "bet" + "@" + metadata
  }

  /** When the encodings hold no "@", the contract reads back the name "bet" and both arguments. */
  lemma CallDataFields(sdk: Sdk, betType: int, betValue: int)
    requires '@' !in EncI32(sdk, betType) && '@' !in EncU32(sdk, betValue)
    ensures Split(CallData(sdk, betType, betValue), '@') == ["bet", EncI32(sdk, betType), EncU32(sdk, betValue)]
  {
    var parts := ["bet", EncI32(sdk, betType), EncU32(sdk, betValue)];
    assert Join(parts, "@") == CallData(sdk, betType, betValue);
    SplitJoin(parts, '@');
  }

  /** The stake in the chain's base unit: KLV has six decimals. */
  function BaseUnits(amount: real): (units: real)
    ensures units / 1000000.0 == amount
  {
    amount * 1000000.0
  }

  /** The smart-contract payload: the configured contract, `scType` 0 and the stake in base units. */
  function BetCall(scAddress: string, amount: real): (call: SmartContractCall)
    ensures call.address == scAddress && call.scType == 0
    ensures call.callValueKlv / 1000000.0 == amount
  {
    SmartContractCall(scAddress, 0, BaseUnits(amount))
  }

  /** Builds, signs and broadcasts the bet; the hashes of the broadcast transactions. */
  function SendBet(sdk: Sdk, scAddress: string, betType: int, betValue: int, amount: real)
    : (r: Result<seq<string>, string>)
    ensures var built := sdk.buildTransaction([BetCall(scAddress, amount)],
                                              [sdk.base64(CallData(sdk, betType, betValue))]);
      && (built.Err? ==> r == Err(built.error))
      && (built.Ok? && sdk.signTransaction(built.value).Err? ==>
            r == Err(sdk.signTransaction(built.value).error))
      && (built.Ok? && sdk.signTransaction(built.value).Ok? ==>
            r == sdk.broadcastTransactions([sdk.signTransaction(built.value).value]))
  {
    var txData := sdk.base64(CallData(sdk, betType, betValue));
    match sdk.buildTransaction([BetCall(scAddress, amount)], [txData])
    case Err(e) => Err(e)
    case Ok(unsignedTx) =>
      match sdk.signTransaction(unsignedTx)
      case Err(e) => Err(e)
      case Ok(signedTx) => sdk.broadcastTransactions([signedTx])
  }

  // ---------------------------------------------------------------- return data

  datatype Event = Event(identifier: string, data: seq<string>)

  /** A transaction as the indexer returns it, with `logs.events` flattened to `events`. */
  datatype Transaction = Transaction(hash: string, events: seq<Event>)

  /** The `data` object of a successful indexer response. */
  datatype IndexedTx = IndexedTx(transaction: Transaction)

  /** `event.data[0]`, which is undefined when the event carries no data. */
  function FirstDatum(event: Event): Option<string> {
    if |event.data| > 0 then Some(event.data[0]) else None
  }

  /** The first datum of the last "ReturnData" event; undefined if there is none. */
  function LastReturnData(events: seq<Event>): Option<string> {
    if events == [] then None
    else if events[|events| - 1].identifier == ReturnDataIdentifier then FirstDatum(events[|events| - 1])
    else LastReturnData(events[..|events| - 1])
  }

  /** A "ReturnData" event followed by none decides the raw payload. */
  lemma {:induction false} LastReturnDataIsLast(events: seq<Event>, i: nat)
    requires i < |events| && events[i].identifier == ReturnDataIdentifier
    requires forall j :: i < j < |events| ==> events[j].identifier != ReturnDataIdentifier
    ensures LastReturnData(events) == FirstDatum(events[i])
    decreases |events|
  {
    if i < |events| - 1 {
      var front := events[..|events| - 1];
      assert forall j :: i < j < |front| ==> front[j] == events[j];
      LastReturnDataIsLast(front, i);
    }
  }

  /** Without a "ReturnData" event the payload stays undefined; no error is raised. */
  lemma {:induction false} NoReturnData(events: seq<Event>)
    requires forall j :: 0 <= j < |events| ==> events[j].identifier != ReturnDataIdentifier
    ensures LastReturnData(events) == None
    decreases |events|
  {
    if events != [] {
      var front := events[..|events| - 1];
      assert forall j :: 0 <= j < |front| ==> front[j] == events[j];
      NoReturnData(front);
    }
  }

  /** The loop over the event log, reassigning the payload at every "ReturnData" event. */
  method ScanReturnData(events: seq<Event>) returns (rawData: Option<string>)
    ensures rawData == LastReturnData(events)
  {
    rawData := None;
    for i := 0 to |events|
      invariant rawData == LastReturnData(events[..i])
    {
      assert events[..i + 1][..i] == events[..i];
      if events[i].identifier == ReturnDataIdentifier {
        rawData := FirstDatum(events[i]);
      }
    }
    assert events[..|events|] == events;
  }

  /** What `getReturnData` gives back: the first decoded bet with its link, or only the link. */
  datatype ReturnValue =
    | WithBet(bet: FormattedBet)
    | LinkOnly(txHash: string)   // `{...undefined, txHash}`: the decoder returned no record

  datatype BetError =
    | SignerFailed(reason: string)            // building, signing or broadcasting rejected
    | Unconfirmed(thrown: Thrown<IndexedTx>)  // a hash's retry loop threw
    | NoTransaction                           // `data[0]` is undefined: no hash was broadcast
    | DecodeFailed(reason: string)            // the decoder threw

  /** The first parsed record with the explorer link set, or the link alone. */
  function WithLink(parsed: seq<FormattedBet>, link: string): (r: ReturnValue)
    ensures r.WithBet? <==> |parsed| > 0
    ensures r.LinkOnly? ==> r.txHash == link
    ensures r.WithBet? ==> r.bet.txHash == Some(link) && r.bet.(txHash := None) == parsed[0].(txHash := None)
  {
    if |parsed| == 0 then LinkOnly(link) else WithBet(parsed[0].(txHash := Some(link)))
  }

  /** Decodes the return payload of one confirmed transaction. */
  function FromTransaction(sdk: Sdk, transaction: Transaction): Result<ReturnValue, BetError> {
    match sdk.decodeList(LastReturnData(transaction.events), "Bet", Abi.DiceAbi)
    case Err(e) => Err(DecodeFailed(e))
    case Ok(decoded) => Ok(WithLink(ConvertBetToJSON(decoded), ExplorerTxPrefix + transaction.hash))
  }

  /** `getReturnData` given what the poller produced: only the first transaction is read. */
  function ReturnDataOf(sdk: Sdk, processed: Result<seq<IndexedTx>, Thrown<IndexedTx>>)
    : Result<ReturnValue, BetError>
  {
    match processed
    case Err(t) => Err(Unconfirmed(t))
    case Ok(data) => if |data| == 0 then Err(NoTransaction) else FromTransaction(sdk, data[0].transaction)
  }

  /** The result depends on the first confirmed transaction only. */
  lemma ReturnDataReadsFirstOnly(sdk: Sdk, first: IndexedTx, rest1: seq<IndexedTx>, rest2: seq<IndexedTx>)
    ensures ReturnDataOf(sdk, Ok([first] + rest1)) == ReturnDataOf(sdk, Ok([first] + rest2))
  {
  }

  /** A decoded record reaches the caller as `convertBet` of it with the explorer link attached. */
  lemma ReturnDataIsConvertedFirstRecord(sdk: Sdk, transaction: Transaction, rest: seq<IndexedTx>,
                                         decoded: seq<RawBet>)
    requires sdk.decodeList(LastReturnData(transaction.events), "Bet", Abi.DiceAbi) == Ok(decoded)
    requires |decoded| > 0
    ensures ReturnDataOf(sdk, Ok([IndexedTx(transaction)] + rest)) ==
      Ok(WithBet(ConvertBet(decoded[0]).(txHash := Some(ExplorerTxPrefix + transaction.hash))))
  {
  }

  /** `getReturnData`: waits for every hash, scans the first transaction's log, decodes, maps. */
  method GetReturnData(sdk: Sdk, api: string, txHashes: seq<string>, indexer: (string, nat) -> Response<IndexedTx>)
    returns (r: Result<ReturnValue, BetError>)
    ensures r == ReturnDataOf(sdk, Processed(api, txHashes, indexer, DefaultTries))
  {
    var data := TransactionsProcessed(api, txHashes, indexer);
    if data.Err? {
      return Err(Unconfirmed(data.error));
    }
    if |data.value| == 0 {
      return Err(NoTransaction);
    }
    var transaction := data.value[0].transaction;
    var rawData := ScanReturnData(transaction.events);
    var decoded := sdk.decodeList(rawData, "Bet", Abi.DiceAbi);
    if decoded.Err? {
      return Err(DecodeFailed(decoded.error));
    }
    var parsed := ConvertBetToJSON(decoded.value);
    r := Ok(WithLink(parsed, ExplorerTxPrefix + transaction.hash));
  }

  /** The try block of a bet: send it, then wait for and decode its return value. */
  function PlaceBet(sdk: Sdk, config: Config, indexer: (string, nat) -> Response<IndexedTx>,
                    betType: BetLabel, prediction: int, amount: real): (r: Result<ReturnValue, BetError>)
    ensures var sent := SendBet(sdk, config.scAddress, BetTypeToNumber(betType), prediction, amount);
      && (sent.Err? ==> r == Err(SignerFailed(sent.error)))
      && (sent.Ok? ==> r == ReturnDataOf(sdk, Processed(config.api, sent.value, indexer, DefaultTries)))
  {
    match SendBet(sdk, config.scAddress, BetTypeToNumber(betType), prediction, amount)
    case Err(e) => Err(SignerFailed(e))
    case Ok(hashes) => ReturnDataOf(sdk, Processed(config.api, hashes, indexer, DefaultTries))
  }

  /**
   * A bet on "over" 50 with stake 10, broadcast as "abc" and confirmed at the first request
   * with one "ReturnData" event decoding to (1, 50, 72, 198, false), yields that record,
   * labelled "over" and linked to "abc".
   */
  lemma OverFiftyScenario(sdk: Sdk, config: Config, indexer: (string, nat) -> Response<IndexedTx>,
                          unsignedTx: UnsignedTx, signedTx: SignedTx, raw: string)
    requires sdk.buildTransaction([BetCall(config.scAddress, 10.0)], [sdk.base64(CallData(sdk, Over, 50))])
             == Ok(unsignedTx)
    requires sdk.signTransaction(unsignedTx) == Ok(signedTx)
    requires sdk.broadcastTransactions([signedTx]) == Ok(["abc"])
    requires indexer(TransactionUrl(config.api, "abc"), 0)
             == DataBody(IndexedTx(Transaction("abc", [Event(ReturnDataIdentifier, [raw])])))
    requires sdk.decodeList(Some(raw), "Bet", Abi.DiceAbi) == Ok([RawBet(1, 50, 72, 198, false)])
    ensures BetCall(config.scAddress, 10.0).callValueKlv == 10000000.0
    ensures CallData(sdk, BetTypeToNumber("over"), 50) == "bet@" + EncI32(sdk, 1) + "@" + EncU32(sdk, 50)
    ensures PlaceBet(sdk, config, indexer, "over", 50, 10.0)
            == Ok(WithBet(FormattedBet("over", 50, 72, 198, false, Some(ExplorerTxPrefix + "abc"))))
  {
    var url := TransactionUrl(config.api, "abc");
    FirstResolved(url, indexer, DefaultTries, 0);
    var os := Outcomes(config.api, ["abc"], indexer, DefaultTries);
    assert os == [Resolved(indexer(url, 0).data)];
    assert os[1..] == [];
    assert JoinAll(os[1..]) == Ok([]);
    assert [indexer(url, 0).data] + [] == [indexer(url, 0).data];
  }

  // ---------------------------------------------------------------- last-bet cache

  function LastBetKey(address: string): string {
    LastBetKeyPrefix + address
  }

  /** Different accounts never share a cache key. */
  lemma LastBetKeyInjective(a: string, b: string)
    requires LastBetKey(a) == LastBetKey(b)
    ensures a == b
  {
    assert a == LastBetKey(a)[|LastBetKeyPrefix|..];
    assert b == LastBetKey(b)[|LastBetKeyPrefix|..];
  }

  /** `JSON.stringify` and `JSON.parse` of the page's bet value, neither of which is modelled. */
  datatype Json = Json(stringify: ReturnValue -> string, parse: string -> Result<ReturnValue, string>)

  /**
   * `getLastResults`: null when the key is absent or holds "", otherwise the parsed value;
   * a value that does not parse is an error, not null.
   */
  function GetLastResults(items: map<string, string>, address: string, json: Json)
    : (r: Result<Option<ReturnValue>, string>)
    ensures LastBetKey(address) !in items || items[LastBetKey(address)] == "" ==> r == Ok(None)
    ensures r == Ok(None) ==> LastBetKey(address) !in items || items[LastBetKey(address)] == ""
    ensures LastBetKey(address) in items && items[LastBetKey(address)] != "" ==>
      match json.parse(items[LastBetKey(address)])
      case Ok(v) => r == Ok(Some(v))
      case Err(e) => r == Err(e)
  {
    var key := LastBetKey(address);
    if key !in items || items[key] == "" then Ok(None)
    else
      match json.parse(items[key])
      case Ok(v) => Ok(Some(v))
      case Err(e) => Err(e)
  }

  /** Loading for an account right after saving for it returns the saved value. */
  lemma SaveThenLoad(items: map<string, string>, address: string, v: ReturnValue, json: Json)
    requires json.stringify(v) != "" && json.parse(json.stringify(v)) == Ok(v)
    ensures GetLastResults(items[LastBetKey(address) := json.stringify(v)], address, json) == Ok(Some(v))
  {
  }

  /** Saving for one account leaves what every other account loads unchanged. */
  lemma SaveKeepsOtherAccounts(items: map<string, string>, a: string, b: string, stored: string, json: Json)
    requires a != b
    ensures GetLastResults(items[LastBetKey(a) := stored], b, json) == GetLastResults(items, b, json)
  {
    if LastBetKey(a) == LastBetKey(b) {
      LastBetKeyInjective(a, b);
    }
  }

  /** The browser's `localStorage`: a string-to-string map. */
  class LocalStorage {
    var items: map<string, string>

    constructor (items: map<string, string>)
      ensures this.items == items
    {
      this.items := items;
    }

    method SetItem(key: string, value: string)
      modifies this
      ensures items == old(items)[key := value]
    {
      items := items[key := value];
    }
  }

  datatype BetOutcome = Refused(rejection: Rejection) | Finished(result: Result<ReturnValue, BetError>)

  /** The page state that the bet flow reads and writes. */
  class Page {
    const storage: LocalStorage
    /** The connected account, "" when no wallet is connected. */
    const address: string
    var bet: Option<ReturnValue>
    var betting: bool
    var betType: BetLabel
    var prediction: int
    var value: JsNumber
    var limits: Limits

    /** The tab state agrees with itself and the prediction lies within the limits. */
    ghost predicate Valid()
      reads this
    {
      TabConsistent(Tab(betType, limits)) && limits.min <= prediction <= limits.max
    }

    /** The initial state: the "over" tab, prediction 50, amount 0, no bet. */
    constructor (storage: LocalStorage, address: string)
      ensures Valid()
      ensures this.storage == storage && this.address == address
      ensures bet == None && !betting && betType == "over" && prediction == 50
      ensures value == Num(0.0) && limits == Limits(5, 98)
    {
      this.storage := storage;
      this.address := address;
      bet := None;
      betting := false;
      betType := "over";
      prediction := 50;
      value := Num(0.0);
      limits := OverLimits;
    }

    /** The effect run when the account is known: show its cached bet, if any. */
    method RestoreLastBet(json: Json) returns (error: Option<string>)
      modifies this`bet
      ensures address == "" ==> bet == old(bet) && error == None
      ensures address != "" ==>
        match GetLastResults(storage.items, address, json)
        case Ok(v) => bet == v && error == None
        case Err(e) => bet == old(bet) && error == Some(e)
    {
      error := None;
      if address == "" {
        return;
      }
      var data := GetLastResults(storage.items, address, json);
      if data.Err? {
        error := Some(data.error);
        return;
      }
      bet := data.value;
    }

    /** A tab change, followed by the effect that re-clamps the prediction to the new limits. */
    method SelectTab(tabValue: string)
      requires Valid()
      modifies this`betType, this`limits, this`prediction
      ensures Valid()
      ensures Tab(betType, limits) == HandleTabChange(tabValue, old(Tab(betType, limits)))
      ensures prediction == HandleSliderChange(old(prediction), limits)
    {
      var tab := HandleTabChange(tabValue, Tab(betType, limits));
      TabChangeKeepsConsistent(tabValue, Tab(betType, limits));
      betType, limits := tab.betType, tab.limits;
      prediction := HandleSliderChange(prediction, limits);
    }

    /** A slider move, clamped to the current limits. */
    method MoveSlider(p: int)
      requires Valid()
      modifies this`prediction
      ensures Valid()
      ensures prediction == HandleSliderChange(p, limits)
    {
      prediction := HandleSliderChange(p, limits);
    }

    /** `setValue(Number(input))`. */
    method EnterAmount(n: JsNumber)
      modifies this`value
      ensures value == n
    {
      value := n;
    }

    /**
     * `handleBet`: the guards first, with no state change and nothing sent when one fails;
     * otherwise the bet is sent, and on success the shown bet and the cache entry are both
     * set to the returned value. `betting` is false when a sent bet finishes either way.
     */
    method HandleBet(sdk: Sdk, json: Json, config: Config, indexer: (string, nat) -> Response<IndexedTx>)
      returns (outcome: BetOutcome, sent: bool)
      requires Valid()
      modifies this`bet, this`betting, storage
      ensures Valid()
      ensures CheckBet(address, old(value)) != None ==>
        && outcome == Refused(CheckBet(address, old(value)).value) && !sent
        && bet == old(bet) && betting == old(betting) && storage.items == old(storage.items)
      ensures CheckBet(address, old(value)) == None ==>
        && sent && !betting
        && outcome == Finished(PlaceBet(sdk, config, indexer, betType, prediction, value.x))
      ensures outcome.Finished? && outcome.result.Ok? ==>
        && bet == Some(outcome.result.value)
        && storage.items == old(storage.items)[LastBetKey(address) := json.stringify(outcome.result.value)]
      ensures outcome.Finished? && outcome.result.Err? ==>
        bet == old(bet) && storage.items == old(storage.items)
    {
      sent := false;
      if address == "" {
        outcome := Refused(WalletMissing);
        return;
      }
      if Falsy(value) {
        outcome := Refused(InvalidAmount);
        return;
      }
      var betTypeParsed := BetTypeToNumber(betType);
      betting := true;
      sent := true;
      var broadcastedTx := SendBet(sdk, config.scAddress, betTypeParsed, prediction, value.x);
      if broadcastedTx.Err? {
        outcome := Finished(Err(SignerFailed(broadcastedTx.error)));
      } else {
        var data := GetReturnData(sdk, config.api, broadcastedTx.value, indexer);
        if data.Ok? {
          bet := Some(data.value);
          storage.SetItem(LastBetKey(address), json.stringify(data.value));
        }
        outcome := Finished(data);
      }
      betting := false;
    }
  }
}
