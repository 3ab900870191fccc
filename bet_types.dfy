/**
 * The bet record types of the dice client: the numeric `BetType` enum, the record the
 * ABI decoder produces (`RawBet`) and the record the page displays and caches (`FormattedBet`).
 */
module BetTypes {
  import opened Wrappers

  /** An unsigned 32-bit value, the ABI type of every numeric field of the `Bet` struct. */
  type U32 = x: int | 0 <= x < 0x1_0000_0000

  /**
   * A TypeScript numeric enum is a set of named numbers, and a value of the enum type is
   * whatever number the decoder produced; so `BetType` is a number here, not a closed type.
   */
  type BetType = U32

  /** `BetType.Under`: the first member of the enum, initialised to 0. */
  const Under: BetType := 0

  /** `BetType.Over`: declared without an initialiser, so one more than the previous member. */
  const Over: BetType := Under + 1

  /** The two labels `FormattedBet.betType` may hold. */
  type BetLabel = s: string | s == "under" || s == "over" witness "over"

  /** The struct as the ABI decoder returns it; the field names are the wire names. */
  datatype RawBet = RawBet(
    bet_type: BetType,
    bet_value: U32,
    dice_value: U32,
    multiplier: U32,   // fixed point, scaled by 100
    is_winner: bool)

  /** The keys of a `RawBet` record, in declaration order. */
  const RawBetKeys: seq<string> := ["bet_type", "bet_value", "dice_value", "multiplier", "is_winner"]

  /** The record the page shows and stores; `txHash` is the optional explorer link. */
  datatype FormattedBet = FormattedBet(
    betType: BetLabel,
    betValue: U32,
    diceValue: U32,
    multiplier: U32,
    isWinner: bool,
    txHash: Option<string>)

  lemma EnumDiscriminants()
    ensures Under == 0 && Over == 1
  {
  }
}
