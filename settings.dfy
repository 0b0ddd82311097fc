/** Table configuration (GameSettings in src/engine/types.ts) and the default
    table of src/utils/constants.ts. */
module Settings {

  datatype Speed = Slow | Normal | Fast | Instant

  datatype GameSettings = GameSettings(
    numberOfDecks: nat,
    penetration: real,
    hitSoft17: bool,
    allowInsurance: bool,
    allowSurrender: bool,
    allowDoubleAfterSplit: bool,
    blackjackPayout: real,
    minimumBet: real,
    maximumBet: real,
    startingBankroll: real,
    numberOfAIPlayers: nat,
    humanSeatPosition: int,
    speed: Speed)

  /** DEFAULT_SETTINGS: six decks dealt to 75%, H17, 3:2 blackjack, $5-$250. */
  const DefaultSettings := GameSettings(6, 0.75, true, true, true, true, 1.5, 5.0, 250.0, 1000.0, 6, 3, Normal)
}
