/** The score read path (GET score): return the user's row, creating it
    lazily with score 0. The create is conditional on the row being absent; a
    lost race re-reads and returns the row the other writer created. */
module ScoreHandler {
  import opened Common
  import opened GameData

  /** Which store calls throw: the first read, the conditional create for a
      reason other than its condition, or the re-read after a conflict. */
  datatype Faults = Faults(get: bool, put: bool, reRead: bool)

  datatype Response = CorsPreflight | MissingUserId | ScoreBody(row: ScoreRow) | Failed
  {
    function Status(): int
    {
      match this
      case CorsPreflight => 200
      case MissingUserId => 400
      case ScoreBody(_) => 200
      case Failed => 500
    }
  }

  datatype Outcome = Outcome(scores: map<string, ScoreRow>, response: Response)

  /** The invocation passes validation and its first read succeeds. */
  predicate Admitted(ev: Event<Option<string>>, f: Faults)
  {
    ev.Request? && PresentString(ev.payload) && !f.get
  }

  /** The handler. `rival` is the score of a row that a concurrent request
      creates for the same user between this handler's read and its
      conditional create (`None`: no such request). */
  function Handle(scores: map<string, ScoreRow>, ev: Event<Option<string>>, rival: Option<int>, f: Faults): (o: Outcome)
    // the only write is conditional on absence: no existing row is ever replaced
    ensures forall u :: u in scores ==> u in o.scores && o.scores[u] == scores[u]
    ensures !Admitted(ev, f) ==> o.scores == scores
    ensures o.response.CorsPreflight? <==> ev.Preflight?
    ensures o.response.MissingUserId? <==> ev.Request? && !PresentString(ev.payload)
    // a throwing first read is caught and answered with 500
    ensures ev.Request? && PresentString(ev.payload) && f.get ==> o.response == Failed
    ensures Admitted(ev, f) ==>
      var u := ev.payload.value;
      && o.scores.Keys <= scores.Keys + {u}
      && (u in scores ==> o.response == ScoreBody(scores[u]) && o.scores == scores)
      && (u !in scores && rival.None? ==>
            (f.put ==> o.response.Failed? && o.scores == scores) &&
            (!f.put ==> o.response == ScoreBody(ScoreRow(u, 0)) && o.scores == scores[u := ScoreRow(u, 0)]))
      && (u !in scores && rival.Some? ==>
            o.scores == scores[u := ScoreRow(u, rival.value)] &&
            o.response == (if f.reRead then Failed else ScoreBody(ScoreRow(u, rival.value))))
    ensures o.response.ScoreBody? ==> ev.payload.value in o.scores && o.response.row == o.scores[ev.payload.value]
  {
    match ev
    case Preflight => Outcome(scores, CorsPreflight)
    case Request(userId) =>
      if !PresentString(userId) then Outcome(scores, MissingUserId)
      else if f.get then Outcome(scores, Failed)
      else
        var u := userId.value;
        if u in scores then Outcome(scores, ScoreBody(scores[u]))
        else
          // the concurrent request's create, if any, lands before ours
          var current := if rival.Some? then scores[u := ScoreRow(u, rival.value)] else scores;
          if u in current then
            // ConditionalCheckFailedException: read again
            if f.reRead then Outcome(current, Failed) else Outcome(current, ScoreBody(current[u]))
          else if f.put then Outcome(current, Failed)
          else Outcome(current[u := ScoreRow(u, 0)], ScoreBody(ScoreRow(u, 0)))
  }
}
