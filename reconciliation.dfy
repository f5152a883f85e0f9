/** How the client's optimistic bookkeeping relates to what the server decides:
    when the countdown card's guess of the score change agrees with the
    resolve handler's verdict, and the two places where it does not. */
module Reconciliation {
  import opened Common
  import opened BitcoinData
  import ActiveGuessView
  import ResolveGuess
  import GameData
  import ApiClient
  import MakeGuess
  import ActiveGuessHandler

  /** The server's change to the score for a resolution of `v`'s guess. */
  function ServerDelta(direction: string, currentPrice: real, startPrice: real): (d: int)
    ensures d == 1 <==> ResolveGuess.IsCorrect(direction, currentPrice, startPrice)
  {
    ResolveGuess.ScoreDelta(ResolveGuess.IsCorrect(direction, currentPrice, startPrice))
  }

  /** With the payload the ActiveGuess card sends, the optimistic score change
      equals the server's as soon as the price differs from the start price. */
  lemma OptimisticAgreesWithServerWhenPriceMoved(userId: string, guess: ClientGuess, price: PricePoint)
    requires price.price != guess.startPrice
    ensures OptimisticDelta(ActiveGuessView.ResolvePayload(userId, guess, price))
         == ServerDelta(guess.direction, price.price, guess.startPrice)
  {
    var v := ActiveGuessView.ResolvePayload(userId, guess, price);
    if guess.direction == "up" {
      assert OptimisticCorrect(v) <==> price.price > guess.startPrice;
    } else if guess.direction == "down" {
      assert OptimisticCorrect(v) <==> price.price < guess.startPrice;
    }
  }

  /** At an unchanged price the two disagree for a down guess: the client
      counts it right, the server wrong. */
  lemma DownAtUnchangedPriceDisagrees(userId: string, guess: ClientGuess, price: PricePoint)
    requires guess.direction == "down" && price.price == guess.startPrice
    ensures OptimisticDelta(ActiveGuessView.ResolvePayload(userId, guess, price)) == 1
    ensures ServerDelta(guess.direction, price.price, guess.startPrice) == -1
  {
  }

  /** The trigger never fires at an unchanged price, so every resolution the
      ActiveGuess card starts is predicted correctly. */
  lemma TriggeredResolveAgrees(userId: string, guess: ClientGuess, tick: ActiveGuessView.Tick, started: bool)
    requires ActiveGuessView.TickFires(guess, tick, started)
    ensures OptimisticDelta(ActiveGuessView.ResolvePayload(userId, guess, tick.price.value))
         == ServerDelta(guess.direction, tick.price.value.price, guess.startPrice)
  {
    OptimisticAgreesWithServerWhenPriceMoved(userId, guess, tick.price.value);
  }

  /** The older card sends neither start price nor direction, so the optimistic
      update always takes a point away, even for an up guess whose price rose,
      which the server rewards. */
  lemma DisplayPayloadMisjudgesWinningGuess(userId: string, guess: ClientGuess, price: PricePoint)
    requires guess.direction == "up" && price.price > guess.startPrice
    ensures OptimisticDelta(ActiveGuessView.DisplayResolvePayload(userId, guess, price)) == -1
    ensures ServerDelta(guess.direction, price.price, guess.startPrice) == 1
  {
  }

  /** A failed resolution as written leaves the optimistic entries in place: the
      score has moved by a point and the guess is gone from the cache, although
      the server changed neither; the snapshot taken before would restore both. */
  lemma FailedResolveKeepsOptimisticEntries(entries: Entries, v: ResolveVars)
    requires CachedGuessPresent(entries, v.userId)
    ensures var e := OptimisticResolve(entries, v);
      && PreviousScore(e, v.userId) != PreviousScore(entries, v.userId)
      && !CachedGuessPresent(e, v.userId)
      && RolledBack(e, v, ResolveContext(Lookup(entries, QueryKeys.UserScore(v.userId)),
                                         Lookup(entries, QueryKeys.ActiveGuess(v.userId)))) == entries
  {
    var e := OptimisticResolve(entries, v);
    assert PreviousScore(e, v.userId) == PreviousScore(entries, v.userId) + OptimisticDelta(v);
    RollbackUndoesOptimisticResolve(entries, v);
  }

  /** The guess written after a create has no expiry, so until the refetch
      replaces it, no tick resolves it. */
  lemma {:induction false} OptimisticGuessNeverFires(userId: string, vars: MakeGuessVars, replyGuessId: Option<string>,
                                                      started: bool, ticks: seq<ActiveGuessView.Tick>)
    ensures ActiveGuessView.Fired(userId, OptimisticGuess(vars, replyGuessId), started, ticks) == []
    decreases |ticks|
  {
    if ticks != [] {
      OptimisticGuessNeverFires(userId, vars, replyGuessId, started, ticks[1..]);
    }
  }

  /** A server row as the client reads it from GET active-guess; the row has no
      `resolved` field, which reads as false. */
  function ClientView(g: GameData.Guess): (c: ClientGuess)
    ensures c.id == Some(g.id) && c.userId == g.userId && c.direction == g.direction
    ensures c.startPrice == g.startPrice && c.expiresAt == Some(g.expiresAt) && !c.resolved
  {
    ClientGuess(Some(g.id), g.userId, g.direction, g.startPrice, Some(g.expiresAt), false)
  }

  /** The create mutation is retried once (`MakeGuessRetries`). When the first
      post created the guess but its reply was lost, the retry's check reads
      that guess back, so the retry refuses with "You already have an active
      guess" and posts nothing; had it posted, the handler would refuse it too
      and keep the first guess. */
  lemma CreateRetryAfterLostReplyRefused(guesses: map<string, GameData.Guess>, b: MakeGuess.Body, now: int,
                                         guessId: string, f: MakeGuess.Faults, post: Result<Option<string>, ApiClient.JsError>,
                                         now2: int, guessId2: string, putFault: bool)
    requires MakeGuess.Handle(guesses, GameData.Request(Some(b)), now, guessId, f).response.Created?
    ensures
      var after := MakeGuess.Handle(guesses, GameData.Request(Some(b)), now, guessId, f).guesses;
      var read := ActiveGuessHandler.Handle(after, GameData.Request(b.userId), false);
      && read == ActiveGuessHandler.ActiveGuessBody(Some(MakeGuess.NewGuess(b, guessId, now)))
      && MakeGuessMutation(Success(ActiveGuessReply(Some(ClientView(read.activeGuess.value)))), post)
           == MakeGuessRun(Failure(ApiClient.Plain("Error", AlreadyActiveMessage)), false)
      && MakeGuess.Handle(after, GameData.Request(Some(b)), now2, guessId2, MakeGuess.Faults(false, putFault))
           == MakeGuess.Outcome(after, MakeGuess.AlreadyActive)
  {
  }
}
