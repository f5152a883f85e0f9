/** The creation guard (POST make-guess): validate the body, refuse when the
    user already has an active guess, otherwise write a fresh guess row under
    the user id. The existence check and the write are two separate calls. */
module MakeGuess {
  import opened Common
  import opened GameData

  /** The parsed request body; a field the client left out is `None`. */
  datatype Body = Body(userId: Option<string>, direction: Option<string>, currentPrice: Option<real>)

  /** Which store calls throw: the existence check (logged and ignored) or the write. */
  datatype Faults = Faults(existenceCheck: bool, put: bool)

  datatype Response = CorsPreflight | MissingData | AlreadyActive | Created(activeGuess: Guess) | Failed
  {
    function Status(): int
    {
      match this
      case CorsPreflight => 200
      case MissingData => 400
      case AlreadyActive => 400
      case Created(_) => 200
      case Failed => 500
    }

    /** The `error` text of a refusal. */
    function ErrorMessage(): (m: string)
    {
      match this
      case MissingData => "Missing required data"
      case AlreadyActive => "You already have an active guess"
      case Failed => "Failed to make guess"
      case _ => ""
    }
  }

  datatype Outcome = Outcome(guesses: map<string, Guess>, response: Response)

  /** The storage expiry marker: creation time plus the resolution window, floored to epoch seconds. */
  function ExpiresAt(timestamp: int): (e: int)
    ensures e * 1000 <= timestamp + GuessResolutionTime < e * 1000 + 1000
  {
    (timestamp + GuessResolutionTime) / 1000
  }

  predicate Valid(b: Body)
  {
    PresentString(b.userId) && PresentString(b.direction) && PresentNumber(b.currentPrice)
  }

  /** The invocation passes parsing and validation. */
  predicate Admitted(ev: Event<Option<Body>>)
  {
    ev.Request? && ev.payload.Some? && Valid(ev.payload.value)
  }

  /** The row written for a valid body, the generated id and the creation time. */
  function NewGuess(b: Body, guessId: string, now: int): (g: Guess)
    requires Valid(b)
    ensures g.userId == b.userId.value && g.id == guessId
    ensures g.direction == b.direction.value && g.startPrice == b.currentPrice.value
    ensures g.timestamp == now && g.expiresAt * 1000 <= now + GuessResolutionTime < g.expiresAt * 1000 + 1000
  {
    Guess(b.userId.value, guessId, b.direction.value, b.currentPrice.value, now, ExpiresAt(now))
  }

  /** The whole handler on the active-guess table; `guessId` is the random id and `now` the clock. */
  function Handle(guesses: map<string, Guess>, ev: Event<Option<Body>>, now: int, guessId: string, f: Faults): (o: Outcome)
    ensures !o.response.Created? ==> o.guesses == guesses
    ensures o.response.CorsPreflight? <==> ev.Preflight?
    ensures o.response.MissingData? <==> ev.Request? && ev.payload.Some? && !Valid(ev.payload.value)
    ensures o.response.AlreadyActive? <==>
      Admitted(ev) && !f.existenceCheck && ev.payload.value.userId.value in guesses
    ensures o.response.Created? <==>
      Admitted(ev) && (f.existenceCheck || ev.payload.value.userId.value !in guesses) && !f.put
    ensures o.response.Created? ==>
      var b := ev.payload.value;
      && o.response.activeGuess == NewGuess(b, guessId, now)
      && o.guesses == guesses[b.userId.value := o.response.activeGuess]
    ensures o.response.Status() == 500 <==>
      (ev.Request? && ev.payload.None?) ||
      (Admitted(ev) && (f.existenceCheck || ev.payload.value.userId.value !in guesses) && f.put)
  {
    match ev
    case Preflight => Outcome(guesses, CorsPreflight)
    case Request(None) => Outcome(guesses, Failed)
    case Request(Some(b)) =>
      if !Valid(b) then Outcome(guesses, MissingData)
      else if !f.existenceCheck && b.userId.value in guesses then Outcome(guesses, AlreadyActive)
      else if f.put then Outcome(guesses, Failed)
      else
        var g := NewGuess(b, guessId, now);
        Outcome(guesses[g.userId := g], Created(g))
  }
}
