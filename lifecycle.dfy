/** The guess lifecycle across handler invocations, taken one after another:
    sequences of calls, the invariants they keep and the scenarios the game
    relies on (create, resolve once, a repeated resolve is refused). */
module Lifecycle {
  import opened Common
  import opened GameData
  import MakeGuess
  import ResolveGuess
  import ScoreHandler
  import ActiveGuessHandler

  /** One handler invocation with its environment (clock, random id, faults). */
  datatype Op =
    | MakeOp(makeEvent: Event<Option<MakeGuess.Body>>, now: int, guessId: string, makeFaults: MakeGuess.Faults)
    | ResolveOp(resolveEvent: Event<Option<ResolveGuess.Body>>, now: int, resolveFaults: ResolveGuess.Faults)
    | ScoreOp(scoreEvent: Event<Option<string>>, rival: Option<int>, scoreFaults: ScoreHandler.Faults)
    | ActiveOp(activeEvent: Event<Option<string>>, getFault: bool)

  function Step(t: Tables, op: Op): Tables
  {
    match op
    case MakeOp(ev, now, id, f) => Tables(MakeGuess.Handle(t.guesses, ev, now, id, f).guesses, t.scores)
    case ResolveOp(ev, now, f) => ResolveGuess.Handle(t, ev, now, f).tables
    case ScoreOp(ev, rival, f) => Tables(t.guesses, ScoreHandler.Handle(t.scores, ev, rival, f).scores)
    case ActiveOp(_, _) => t
  }

  function Run(t: Tables, ops: seq<Op>): Tables
    decreases |ops|
  {
    if ops == [] then t else Run(Step(t, ops[0]), ops[1..])
  }

  /** Every row is filed under its own user id, and every stored guess carries
      the expiry that make-guess derives from its creation time. */
  ghost predicate WellFormed(t: Tables)
  {
    (forall u :: u in t.guesses ==> t.guesses[u].userId == u) &&
    (forall u :: u in t.guesses ==> t.guesses[u].expiresAt == MakeGuess.ExpiresAt(t.guesses[u].timestamp)) &&
    (forall u :: u in t.scores ==> t.scores[u].userId == u)
  }

  lemma StepPreservesWellFormed(t: Tables, op: Op)
    requires WellFormed(t)
    ensures WellFormed(Step(t, op))
  {
  }

  /** No sequence of handler calls, with any faults and any interleaved
      creates, files a row under a foreign key or stores a wrong expiry. */
  lemma {:induction false} RunPreservesWellFormed(t: Tables, ops: seq<Op>)
    requires WellFormed(t)
    ensures WellFormed(Run(t, ops))
    decreases |ops|
  {
    if ops != [] {
      StepPreservesWellFormed(t, ops[0]);
      RunPreservesWellFormed(Step(t, ops[0]), ops[1..]);
    }
  }

  /** A call made without a concurrent creator in between. */
  predicate Sequential(op: Op)
  {
    !(op.ScoreOp? && op.rival.Some?)
  }

  function CountResolves(ops: seq<Op>): (n: nat)
    ensures n <= |ops|
    decreases |ops|
  {
    if ops == [] then 0 else (if ops[0].ResolveOp? then 1 else 0) + CountResolves(ops[1..])
  }

  /** Only resolve-guess moves a score, and by one point at most. */
  lemma StepMovesScoreByAtMostOne(t: Tables, op: Op, u: string)
    requires Sequential(op)
    ensures !op.ResolveOp? ==> ScoreOf(Step(t, op).scores, u) == ScoreOf(t.scores, u)
    ensures -1 <= ScoreOf(Step(t, op).scores, u) - ScoreOf(t.scores, u) <= 1
  {
  }

  /** Over any sequence of calls, a user's score drifts by at most the number of resolve calls. */
  lemma {:induction false} RunMovesScoreByAtMostResolves(t: Tables, ops: seq<Op>, u: string)
    requires forall i :: 0 <= i < |ops| ==> Sequential(ops[i])
    ensures -(CountResolves(ops) as int) <= ScoreOf(Run(t, ops).scores, u) - ScoreOf(t.scores, u) <= CountResolves(ops)
    decreases |ops|
  {
    if ops != [] {
      StepMovesScoreByAtMostOne(t, ops[0], u);
      RunMovesScoreByAtMostResolves(Step(t, ops[0]), ops[1..], u);
    }
  }

  /** A guess row is replaced by another only when make-guess's existence check threw. */
  lemma GuessReplacedOnlyAfterFailedCheck(t: Tables, op: Op, u: string)
    requires u in t.guesses && u in Step(t, op).guesses && Step(t, op).guesses[u] != t.guesses[u]
    ensures op.MakeOp? && op.makeFaults.existenceCheck
  {
  }

  /** After a successful resolution, the same request (at any later time, with
      any faults except a failing guess read) finds no guess: 404. */
  lemma SecondResolveNotFound(t: Tables, ev: Event<Option<ResolveGuess.Body>>, now: int, f: ResolveGuess.Faults,
                              later: int, g: ResolveGuess.Faults)
    requires ResolveGuess.Handle(t, ev, now, f).response.Resolved?
    requires !g.getGuess
    ensures ResolveGuess.Handle(ResolveGuess.Handle(t, ev, now, f).tables, ev, later, g).response.GuessNotFound?
  {
  }

  /** Creating twice without a resolution in between: the second call is refused and the first guess stays. */
  lemma SecondCreateRefused(guesses: map<string, Guess>, ev: Event<Option<MakeGuess.Body>>, now: int, id: string,
                            f: MakeGuess.Faults, ev2: Event<Option<MakeGuess.Body>>, later: int, id2: string)
    requires MakeGuess.Handle(guesses, ev, now, id, f).response.Created?
    requires MakeGuess.Admitted(ev2) && ev2.payload.value.userId == ev.payload.value.userId
    ensures
      var first := MakeGuess.Handle(guesses, ev, now, id, f);
      var second := MakeGuess.Handle(first.guesses, ev2, later, id2, MakeGuess.Faults(false, false));
      second.response.AlreadyActive? && second.guesses == first.guesses
  {
  }

  /** A throwing existence check lets a second create overwrite the first guess,
      after which the first guess's id no longer resolves. */
  lemma FailedCheckOverwrites(t: Tables, ev: Event<Option<MakeGuess.Body>>, now: int, id: string,
                              resolveBody: ResolveGuess.Body, later: int)
    requires MakeGuess.Admitted(ev)
    requires ev.payload.value.userId.value in t.guesses && t.guesses[ev.payload.value.userId.value].id != id
    requires ResolveGuess.Valid(resolveBody) && resolveBody.userId == ev.payload.value.userId
    requires resolveBody.guessId == Some(t.guesses[ev.payload.value.userId.value].id)
    ensures
      var made := MakeGuess.Handle(t.guesses, ev, now, id, MakeGuess.Faults(true, false));
      && made.response.Created?
      && ResolveGuess.Handle(Tables(made.guesses, t.scores), Request(Some(resolveBody)), later,
                             ResolveGuess.Faults(false, false, false, false)).response.GuessNotFound?
  {
  }

  /** Resolution is not transactional: if the delete throws after the score was
      written, the client sees 500, the guess stays, and a retry of the same
      request is accepted and moves the score a second time. */
  lemma DeleteFailureThenRetryCountsTwice(t: Tables, b: ResolveGuess.Body, now: int, later: int)
    requires ResolveGuess.Valid(b) && ResolveGuess.Matches(t.guesses, b)
    ensures
      var u := b.userId.value;
      var g := t.guesses[u];
      var delta := ResolveGuess.ScoreDelta(ResolveGuess.IsCorrect(g.direction, b.currentPrice.value, g.startPrice));
      var first := ResolveGuess.Handle(t, Request(Some(b)), now, ResolveGuess.Faults(false, false, false, true));
      var second := ResolveGuess.Handle(first.tables, Request(Some(b)), later, ResolveGuess.Faults(false, false, false, false));
      && first.response.Status() == 500
      && u in first.tables.guesses
      && second.response.Resolved?
      && ScoreOf(second.tables.scores, u) == ScoreOf(t.scores, u) + 2 * delta
      && second.response.result.score == ScoreOf(t.scores, u) + 2 * delta
  {
  }

  /** Reading a score twice: the second read returns the first read's row and writes nothing. */
  lemma ScoreReadIsStable(scores: map<string, ScoreRow>, u: string, rival: Option<int>, f: ScoreHandler.Faults)
    requires u != ""
    requires ScoreHandler.Handle(scores, Request(Some(u)), rival, f).response.ScoreBody?
    ensures
      var first := ScoreHandler.Handle(scores, Request(Some(u)), rival, f);
      var second := ScoreHandler.Handle(first.scores, Request(Some(u)), None, ScoreHandler.Faults(false, false, false));
      second.response == first.response && second.scores == first.scores
  {
  }

  /** The round of play the game is built on: a user without an active guess
      guesses `direction` at price `start`, and the guess is resolved at price
      `settle` with no store failures. */
  function PlayRound(t: Tables, u: string, direction: string, start: real, settle: real, id: string, now: int, later: int)
    : (o: ResolveGuess.Outcome)
  {
    var made := MakeGuess.Handle(t.guesses, Request(Some(MakeGuess.Body(Some(u), Some(direction), Some(start)))),
                                 now, id, MakeGuess.Faults(false, false));
    ResolveGuess.Handle(Tables(made.guesses, t.scores),
                        Request(Some(ResolveGuess.Body(Some(u), Some(id), Some(settle)))),
                        later, ResolveGuess.Faults(false, false, false, false))
  }

  /** Up at 50000, settled at 51000 / 49000 / 50000: right (+1), wrong (-1), wrong (-1). */
  lemma PlayRoundScenarios(t: Tables, u: string, id: string, now: int, later: int)
    requires u != "" && id != "" && u !in t.guesses
    ensures
      var r := PlayRound(t, u, "up", 50000.0, 51000.0, id, now, later).response;
      r.Resolved? && r.result.isCorrect && r.result.score == ScoreOf(t.scores, u) + 1 && r.result.duration == later - now
    ensures
      var r := PlayRound(t, u, "up", 50000.0, 49000.0, id, now, later).response;
      r.Resolved? && !r.result.isCorrect && r.result.score == ScoreOf(t.scores, u) - 1
    ensures
      var r := PlayRound(t, u, "up", 50000.0, 50000.0, id, now, later).response;
      r.Resolved? && !r.result.isCorrect && r.result.score == ScoreOf(t.scores, u) - 1
    ensures
      var r := PlayRound(t, u, "down", 50000.0, 50000.0, id, now, later).response;
      r.Resolved? && !r.result.isCorrect
  {
  }
}
