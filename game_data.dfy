/** The two keyed stores of the game server (the active-guess table and the
    score table, both keyed by user id) and the shape of a Lambda invocation. */
module GameData {
  import opened Common

  /** Milliseconds a guess runs before it may be resolved (GAME_CONFIG.guessResolutionTime). */
  const GuessResolutionTime: int := 60000

  /** A row of the active-guess table. `direction` is whatever string the
      client sent; `timestamp` is epoch milliseconds, `expiresAt` epoch seconds. */
  datatype Guess = Guess(
    userId: string,
    id: string,
    direction: string,
    startPrice: real,
    timestamp: int,
    expiresAt: int)

  /** A row of the score table (the ISO-8601 createdAt/updatedAt stamps are not modelled). */
  datatype ScoreRow = ScoreRow(userId: string, score: int)

  /** Both tables at one instant. */
  datatype Tables = Tables(guesses: map<string, Guess>, scores: map<string, ScoreRow>)

  /** What a handler receives: a CORS preflight (httpMethod OPTIONS) or a call
      carrying its payload. For POST handlers the payload is `None` when the
      body is not valid JSON; for GET handlers it is the `userId` query parameter. */
  datatype Event<P> = Preflight | Request(payload: P)

  /** The score a user has for the purposes of arithmetic: the row's score, or 0 with no row. */
  function ScoreOf(scores: map<string, ScoreRow>, userId: string): int
  {
    if userId in scores then scores[userId].score else 0
  }

  /** Only the rows of `userId` may differ between `before` and `after`. */
  ghost predicate OnlyUserChanged(before: Tables, after: Tables, userId: string)
  {
    (forall u :: u != userId ==> (u in after.guesses <==> u in before.guesses)) &&
    (forall u :: u != userId && u in after.guesses ==> u in before.guesses && after.guesses[u] == before.guesses[u]) &&
    (forall u :: u != userId ==> (u in after.scores <==> u in before.scores)) &&
    (forall u :: u != userId && u in after.scores ==> u in before.scores && after.scores[u] == before.scores[u])
  }
}
