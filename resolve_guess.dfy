/** The resolution engine (POST resolve-guess): settle the user's active guess
    against the price the client supplies, move the score by one point, remove
    the guess and report the verdict. The store calls are sequential and not
    transactional; each one that can throw is a flag in `Faults`. */
module ResolveGuess {
  import opened Common
  import opened GameData

  /** The parsed request body; a field the client left out is `None`. */
  datatype Body = Body(userId: Option<string>, guessId: Option<string>, currentPrice: Option<real>)

  /** Which store calls throw during this invocation. */
  datatype Faults = Faults(getGuess: bool, getScore: bool, putScore: bool, delete: bool)

  /** The `result` object of a successful response. */
  datatype Resolution = Resolution(
    isCorrect: bool,
    score: int,
    startPrice: real,
    endPrice: real,
    direction: string,
    duration: int)

  datatype Response = CorsPreflight | MissingData | GuessNotFound | Resolved(result: Resolution) | Failed
  {
    function Status(): int
    {
      match this
      case CorsPreflight => 200
      case MissingData => 400
      case GuessNotFound => 404
      case Resolved(_) => 200
      case Failed => 500
    }
  }

  datatype Outcome = Outcome(tables: Tables, response: Response)

  /** The verdict: a guess is right only if the price moved strictly in its direction. */
  function IsCorrect(direction: string, currentPrice: real, startPrice: real): (c: bool)
    ensures direction == "up" ==> (c <==> currentPrice > startPrice)
    ensures direction == "down" ==> (c <==> currentPrice < startPrice)
    ensures direction != "up" && direction != "down" ==> !c
    ensures currentPrice == startPrice ==> !c
  {
    (direction == "up" && currentPrice > startPrice) || (direction == "down" && currentPrice < startPrice)
  }

  /** Points for a verdict. The client configuration agrees on -1 in one place
      and says 0 in another (src/config/game.ts:5 and :22); the handler uses -1. */
  function ScoreDelta(isCorrect: bool): (d: int)
    ensures d == 1 || d == -1
    ensures d == 1 <==> isCorrect
  {
    if isCorrect then 1 else -1
  }

  /** The validation guard: every field present and truthy (a price of 0 is refused). */
  predicate Valid(b: Body)
  {
    PresentString(b.userId) && PresentString(b.guessId) && PresentNumber(b.currentPrice)
  }

  /** The invocation gets past parsing, validation and the guess lookup. */
  predicate Admitted(ev: Event<Option<Body>>, f: Faults)
  {
    ev.Request? && ev.payload.Some? && Valid(ev.payload.value) && !f.getGuess
  }

  /** The stored guess of the body's user exists and carries the body's guess id. */
  predicate Matches(guesses: map<string, Guess>, b: Body)
    requires Valid(b)
  {
    b.userId.value in guesses && guesses[b.userId.value].id == b.guessId.value
  }

  datatype ScoreUpdate = ScoreUpdate(scores: map<string, ScoreRow>, reported: int)

  /** The score step: read the row (0 without one), add the delta, write it
      back. A throwing read or write is swallowed; `reported` is the score the
      response will carry, which is the bare delta only when the read threw. */
  function UpdateScore(scores: map<string, ScoreRow>, userId: string, delta: int, f: Faults): (r: ScoreUpdate)
    ensures !f.getScore && !f.putScore ==>
      r.reported == ScoreOf(scores, userId) + delta && r.scores == scores[userId := ScoreRow(userId, r.reported)]
    ensures f.getScore ==> r.scores == scores && r.reported == delta
    ensures !f.getScore && f.putScore ==> r.scores == scores && r.reported == ScoreOf(scores, userId) + delta
    ensures forall u :: u != userId ==> (u in r.scores <==> u in scores)
    ensures forall u :: u != userId && u in r.scores ==> r.scores[u] == scores[u]
  {
    if f.getScore then ScoreUpdate(scores, delta)
    else
      var current := if userId in scores then scores[userId] else ScoreRow(userId, 0);
      var newScore := ScoreRow(userId, current.score + delta);
      if f.putScore then ScoreUpdate(scores, newScore.score)
      else ScoreUpdate(scores[userId := newScore], newScore.score)
  }

  /** The whole handler on the two tables at the time of the call. */
  function Handle(t: Tables, ev: Event<Option<Body>>, now: int, f: Faults): (o: Outcome)
    // a preflight, an unparseable body, a refused body or a lookup miss writes nothing
    ensures !o.response.Resolved? && !(Admitted(ev, f) && Matches(t.guesses, ev.payload.value)) ==> o.tables == t
    ensures o.response.CorsPreflight? <==> ev.Preflight?
    ensures o.response.MissingData? <==> ev.Request? && ev.payload.Some? && !Valid(ev.payload.value)
    ensures o.response.GuessNotFound? <==> Admitted(ev, f) && !Matches(t.guesses, ev.payload.value)
    ensures o.response.Resolved? <==> Admitted(ev, f) && Matches(t.guesses, ev.payload.value) && !f.delete
    ensures o.response.Resolved? ==>
      var b := ev.payload.value;
      var g := t.guesses[b.userId.value];
      var r := o.response.result;
      && r.isCorrect == IsCorrect(g.direction, b.currentPrice.value, g.startPrice)
      && r.startPrice == g.startPrice && r.direction == g.direction
      && r.endPrice == b.currentPrice.value
      && r.duration == now - g.timestamp
      && o.tables.guesses == t.guesses - {b.userId.value}
      && o.tables.scores == UpdateScore(t.scores, b.userId.value, ScoreDelta(r.isCorrect), f).scores
      && r.score == UpdateScore(t.scores, b.userId.value, ScoreDelta(r.isCorrect), f).reported
    // a failing delete leaves the guess in place although the score step has run
    ensures Admitted(ev, f) && Matches(t.guesses, ev.payload.value) && f.delete ==>
      var b := ev.payload.value;
      var g := t.guesses[b.userId.value];
      && o.response.Failed?
      && o.tables.guesses == t.guesses
      && o.tables.scores == UpdateScore(t.scores, b.userId.value,
                                        ScoreDelta(IsCorrect(g.direction, b.currentPrice.value, g.startPrice)), f).scores
    ensures ev.Request? && ev.payload.Some? && Valid(ev.payload.value) ==>
      OnlyUserChanged(t, o.tables, ev.payload.value.userId.value)
  {
    match ev
    case Preflight => Outcome(t, CorsPreflight)
    case Request(None) => Outcome(t, Failed)
    case Request(Some(b)) =>
      if !Valid(b) then Outcome(t, MissingData)
      else if f.getGuess then Outcome(t, Failed)
      else if !Matches(t.guesses, b) then Outcome(t, GuessNotFound)
      else
        var userId, price := b.userId.value, b.currentPrice.value;
        var g := t.guesses[userId];
        var isCorrect := IsCorrect(g.direction, price, g.startPrice);
        var update := UpdateScore(t.scores, userId, ScoreDelta(isCorrect), f);
        if f.delete then Outcome(Tables(t.guesses, update.scores), Failed)
        else
          Outcome(Tables(t.guesses - {userId}, update.scores),
                  Resolved(Resolution(isCorrect, update.reported, g.startPrice, price, g.direction, now - g.timestamp)))
  }
}
