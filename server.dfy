/** The game server: the active-guess table and the score table, and one
    method per Lambda handler. Each method performs the handler's store calls
    in the handler's order and is proved to agree with the handler's
    specification function. */
module Server {
  import opened Common
  import opened GameData
  import MakeGuess
  import ResolveGuess
  import ScoreHandler
  import ActiveGuessHandler

  class GameServer {
    var guesses: map<string, Guess>
    var scores: map<string, ScoreRow>

    constructor ()
      ensures guesses == map[] && scores == map[]
    {
      guesses := map[];
      scores := map[];
    }

    /** POST make-guess. */
    method PostMakeGuess(ev: Event<Option<MakeGuess.Body>>, now: int, guessId: string, f: MakeGuess.Faults)
      returns (response: MakeGuess.Response)
      modifies this
      ensures MakeGuess.Handle(old(guesses), ev, now, guessId, f) == MakeGuess.Outcome(guesses, response)
      ensures scores == old(scores)
    {
      if ev.Preflight? {
        return MakeGuess.CorsPreflight;
      }
      if ev.payload.None? {
        return MakeGuess.Failed;
      }
      var body := ev.payload.value;
      if !MakeGuess.Valid(body) {
        return MakeGuess.MissingData;
      }
      var userId := body.userId.value;
      if !f.existenceCheck {
        var existing := if userId in guesses then Some(guesses[userId]) else None;
        if existing.Some? {
          return MakeGuess.AlreadyActive;
        }
      }
      // a throwing existence check is logged and creation goes ahead
      var timestamp := now;
      var expiresAt := (timestamp + GuessResolutionTime) / 1000;
      var activeGuess := Guess(userId, guessId, body.direction.value, body.currentPrice.value, timestamp, expiresAt);
      if f.put {
        return MakeGuess.Failed;
      }
      guesses := guesses[userId := activeGuess];
      response := MakeGuess.Created(activeGuess);
    }

    /** POST resolve-guess. */
    method PostResolveGuess(ev: Event<Option<ResolveGuess.Body>>, now: int, f: ResolveGuess.Faults)
      returns (response: ResolveGuess.Response)
      modifies this
      ensures ResolveGuess.Handle(Tables(old(guesses), old(scores)), ev, now, f)
              == ResolveGuess.Outcome(Tables(guesses, scores), response)
    {
      if ev.Preflight? {
        return ResolveGuess.CorsPreflight;
      }
      if ev.payload.None? {
        return ResolveGuess.Failed;
      }
      var body := ev.payload.value;
      if !ResolveGuess.Valid(body) {
        return ResolveGuess.MissingData;
      }
      if f.getGuess {
        return ResolveGuess.Failed;
      }
      var userId, guessId, currentPrice := body.userId.value, body.guessId.value, body.currentPrice.value;
      var item := if userId in guesses then Some(guesses[userId]) else None;
      if item.None? || item.value.id != guessId {
        return ResolveGuess.GuessNotFound;
      }
      var guess := item.value;
      var isCorrect := ResolveGuess.IsCorrect(guess.direction, currentPrice, guess.startPrice);
      var score := ResolveGuess.ScoreDelta(isCorrect);
      var duration := now - guess.timestamp;
      // the reported score defaults to the bare delta if the score step throws early
      var newScore := ScoreRow(userId, score);
      if !f.getScore {
        var currentScore := if userId in scores then scores[userId] else ScoreRow(userId, 0);
        newScore := ScoreRow(userId, currentScore.score + score);
        if !f.putScore {
          scores := scores[userId := newScore];
        }
      }
      if f.delete {
        return ResolveGuess.Failed;
      }
      guesses := guesses - {userId};
      response := ResolveGuess.Resolved(
        ResolveGuess.Resolution(isCorrect, newScore.score, guess.startPrice, currentPrice, guess.direction, duration));
    }

    /** GET score; `rival` is a row created by a concurrent request between the read and the create. */
    method GetScore(ev: Event<Option<string>>, rival: Option<int>, f: ScoreHandler.Faults)
      returns (response: ScoreHandler.Response)
      modifies this
      ensures ScoreHandler.Handle(old(scores), ev, rival, f) == ScoreHandler.Outcome(scores, response)
      ensures guesses == old(guesses)
    {
      if ev.Preflight? {
        return ScoreHandler.CorsPreflight;
      }
      if !PresentString(ev.payload) {
        return ScoreHandler.MissingUserId;
      }
      if f.get {
        return ScoreHandler.Failed;
      }
      var userId := ev.payload.value;
      if userId in scores {
        return ScoreHandler.ScoreBody(scores[userId]);
      }
      if rival.Some? {
        scores := scores[userId := ScoreRow(userId, rival.value)];
      }
      var defaultScore := ScoreRow(userId, 0);
      if userId in scores {
        // ConditionalCheckFailedException: another request created the row
        if f.reRead {
          return ScoreHandler.Failed;
        }
        return ScoreHandler.ScoreBody(scores[userId]);
      }
      if f.put {
        return ScoreHandler.Failed;
      }
      scores := scores[userId := defaultScore];
      response := ScoreHandler.ScoreBody(defaultScore);
    }

    /** GET active-guess: a read-only lookup. */
    method GetActiveGuess(ev: Event<Option<string>>, getFault: bool) returns (response: ActiveGuessHandler.Response)
      ensures response == ActiveGuessHandler.Handle(guesses, ev, getFault)
    {
      if ev.Preflight? {
        return ActiveGuessHandler.CorsPreflight;
      }
      if !PresentString(ev.payload) {
        return ActiveGuessHandler.MissingUserId;
      }
      if getFault {
        return ActiveGuessHandler.Failed;
      }
      var item := if ev.payload.value in guesses then Some(guesses[ev.payload.value]) else None;
      response := ActiveGuessHandler.ActiveGuessBody(item);
    }
  }
}
