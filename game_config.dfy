/** The client's game constants (GAME_CONFIG of the browser bundle). */
module GameConfig {
  /** Milliseconds a guess runs before it may be resolved. */
  const GuessResolutionTime: int := 60000
  /** Points for a correct and an incorrect resolution, as the optimistic update applies them.
      The same configuration also states a penalty of 0 under another name, which nothing reads. */
  const CorrectGuessPoints: int := 1
  const IncorrectGuessPoints: int := -1
  const InitialPlayerScore: int := 0
  /** Base of the price polling interval, in milliseconds. */
  const PriceUpdateInterval: int := 1000
  /** Length of the countdown window, in milliseconds. */
  const GuessInterval: int := 60000
}
