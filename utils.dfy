/** The pure helpers of the client: address shortening and bet-record mapping. */
module Utils {
  import opened Wrappers
  import opened BetTypes

  /** `s.slice(0, n)` for n >= 0: at most the first n characters. */
  function SliceHead(s: string, n: nat): (r: string)
    ensures |r| == if |s| < n then |s| else n
    ensures r <= s
  {
    if |s| < n then s else s[..n]
  }

  /** `s.slice(-n)` for n > 0: at most the last n characters (a start below 0 is taken as 0). */
  function SliceTail(s: string, n: nat): (r: string)
    requires n > 0
    ensures |r| == if |s| < n then |s| else n
    ensures r == s[|s| - |r|..]
  {
    if |s| < n then s else s[|s| - n..]
  }

  /** The first and last eight characters of an address, joined by an ellipsis. */
  function FormatAddress(address: string): (r: string)
    ensures |address| >= 8 ==> |r| == 19 && r == address[..8] + "..." + address[|address| - 8..]
    ensures |address| < 8 ==> r == address + "..." + address
  {
    SliceHead(address, 8) + "..." + SliceTail(address, 8)
  }

  /** A shortened address keeps the head and the tail of the original, around "...". */
  lemma FormatAddressParts(address: string)
    requires |address| >= 8
    ensures FormatAddress(address)[..8] == address[..8]
    ensures FormatAddress(address)[8..11] == "..."
    ensures FormatAddress(address)[11..] == address[|address| - 8..]
  {
    var r := FormatAddress(address);
    assert r == address[..8] + "..." + address[|address| - 8..];
    assert r[..8] == (address[..8] + "..." + address[|address| - 8..])[..8];
  }

  /** Only discriminant 0 reads as "under"; every other number reads as "over". */
  function BetTypeToString(betType: BetType): (text: BetLabel)
    ensures text == "under" <==> betType == Under
    ensures text == "over" <==> betType != Under
  {
    if betType == Under then "under" else "over"
  }

  /** Only "under" maps to `Under`; every other string maps to `Over`. */
  function BetTypeToNumber(text: string): (betType: BetType)
    ensures betType == Under <==> text == "under"
    ensures betType == Over <==> text != "under"
  {
    if text == "under" then Under else Over
  }

  lemma NumberStringRoundTrip(betType: BetType)
    requires betType == Under || betType == Over
    ensures BetTypeToNumber(BetTypeToString(betType)) == betType
  {
  }

  lemma StringNumberRoundTrip(text: BetLabel)
    ensures BetTypeToString(BetTypeToNumber(text)) == text
  {
  }

  /** A discriminant the enum does not declare is not rejected: it is read as `Over`. */
  lemma UndeclaredDiscriminantReadsAsOver(betType: BetType)
    requires betType != Under && betType != Over
    ensures BetTypeToString(betType) == "over"
    ensures BetTypeToNumber(BetTypeToString(betType)) == Over != betType
  {
  }

  /** Maps a decoded record to the display record: the text is derived, every number is copied. */
  function ConvertBet(bet: RawBet): (f: FormattedBet)
    ensures f.betType == BetTypeToString(bet.bet_type)
    ensures f.betValue == bet.bet_value && f.diceValue == bet.dice_value
    ensures f.multiplier == bet.multiplier && f.isWinner == bet.is_winner
    ensures f.txHash == None
  {
    FormattedBet(BetTypeToString(bet.bet_type), bet.bet_value, bet.dice_value,
                 bet.multiplier, bet.is_winner, None)
  }

  /** For a declared discriminant, the raw record can be read back from the display record. */
  lemma ConvertBetLossless(bet: RawBet)
    requires bet.bet_type == Under || bet.bet_type == Over
    ensures var f := ConvertBet(bet);
      RawBet(BetTypeToNumber(f.betType), f.betValue, f.diceValue, f.multiplier, f.isWinner) == bet
  {
  }

  /** `bets.map(convertBet)`. */
  function ConvertBetToJSON(bets: seq<RawBet>): (r: seq<FormattedBet>)
    ensures |r| == |bets|
    ensures forall i :: 0 <= i < |bets| ==> r[i] == ConvertBet(bets[i])
  {
    if bets == [] then [] else [ConvertBet(bets[0])] + ConvertBetToJSON(bets[1..])
  }
}
