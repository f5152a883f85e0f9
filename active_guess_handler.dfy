/** The active-guess read path (GET active-guess): one lookup in the
    active-guess table, answering the row or null. */
module ActiveGuessHandler {
  import opened Common
  import opened GameData

  datatype Response = CorsPreflight | MissingUserId | ActiveGuessBody(activeGuess: Option<Guess>) | Failed
  {
    function Status(): int
    {
      match this
      case CorsPreflight => 200
      case MissingUserId => 400
      case ActiveGuessBody(_) => 200
      case Failed => 500
    }
  }

  /** The handler; `getFault` says whether the table read throws. */
  function Handle(guesses: map<string, Guess>, ev: Event<Option<string>>, getFault: bool): (r: Response)
    ensures r.CorsPreflight? <==> ev.Preflight?
    ensures r.MissingUserId? <==> ev.Request? && !PresentString(ev.payload)
    ensures r.Failed? <==> ev.Request? && PresentString(ev.payload) && getFault
    ensures r.ActiveGuessBody? ==>
      (r.activeGuess.Some? <==> ev.payload.value in guesses) &&
      (r.activeGuess.Some? ==> r.activeGuess.value == guesses[ev.payload.value])
  {
    match ev
    case Preflight => CorsPreflight
    case Request(userId) =>
      if !PresentString(userId) then MissingUserId
      else if getFault then Failed
      else ActiveGuessBody(if userId.value in guesses then Some(guesses[userId.value]) else None)
  }
}
