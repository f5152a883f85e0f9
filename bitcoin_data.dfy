/** The browser's data layer: the query cache (server state keyed by query
    key), the optimistic updates the create and resolve mutations apply to it,
    and the retry and polling policies of the three queries and two mutations. */
module BitcoinData {
  import opened Common
  import QueryKeys
  import GameConfig
  import opened ApiClient

  /** A guess as the client holds it (IGuess). `direction` is the string the
      server stored; `id` and `expiresAt` are absent in the optimistic guess
      written after a create. */
  datatype ClientGuess = ClientGuess(
    id: Option<string>,
    userId: string,
    direction: string,
    startPrice: real,
    expiresAt: Option<int>,
    resolved: bool)

  /** The body of GET active-guess as the client reads it. */
  datatype ActiveGuessReply = ActiveGuessReply(activeGuess: Option<ClientGuess>)

  /** A cached value: the price, a `{score}` object, or a guess (`None` is null). */
  datatype CacheValue =
    | PriceValue(point: PricePoint)
    | ScoreValue(score: int)
    | GuessValue(guess: Option<ClientGuess>)

  type Entries = map<QueryKeys.QueryKey, CacheValue>

  /** Every entry has the shape its key's query produces. */
  predicate Fits(k: QueryKeys.QueryKey, v: CacheValue)
  {
    (|k| == 2 && k[1] == "price" ==> v.PriceValue?) &&
    (|k| == 3 && k[1] == "userScore" ==> v.ScoreValue?) &&
    (|k| == 3 && k[1] == "activeGuess" ==> v.GuessValue?)
  }

  predicate WellTyped(entries: Entries)
  {
    forall k :: k in entries ==> Fits(k, entries[k])
  }

  // ---------------------------------------------------------------- reads

  /** `!previousGuess` is false: a guess entry that is present and not null. */
  predicate CachedGuessPresent(entries: Entries, userId: string)
  {
    var k := QueryKeys.ActiveGuess(userId);
    k in entries && !(entries[k].GuessValue? && entries[k].guess.None?)
  }

  /** `old?.score || 0` for the user's score entry. */
  function PreviousScore(entries: Entries, userId: string): (s: int)
    ensures QueryKeys.UserScore(userId) !in entries ==> s == 0
    ensures QueryKeys.UserScore(userId) in entries && entries[QueryKeys.UserScore(userId)].ScoreValue? ==>
              s == entries[QueryKeys.UserScore(userId)].score
  {
    var k := QueryKeys.UserScore(userId);
    if k in entries && entries[k].ScoreValue? then entries[k].score else 0
  }

  /** `getQueryData(key)`: the entry, or undefined. */
  function Lookup(entries: Entries, k: QueryKeys.QueryKey): Option<CacheValue>
  {
    if k in entries then Some(entries[k]) else None
  }

  // ---------------------------------------------------------------- resolve mutation

  /** The variables `mutate` is called with. The countdown component passes all
      five; fields another caller leaves out are `None` (undefined). */
  datatype ResolveVars = ResolveVars(
    userId: string,
    guessId: Option<string>,
    currentPrice: real,
    startPrice: Option<real>,
    direction: Option<string>)

  /** `currentPrice > startPrice`; a comparison with undefined is false. */
  predicate PriceWentUp(v: ResolveVars)
  {
    v.startPrice.Some? && v.currentPrice > v.startPrice.value
  }

  /** The optimistic verdict: up is right when the price rose, down whenever it did not. */
  predicate OptimisticCorrect(v: ResolveVars)
    ensures v.direction == Some("up") ==> (OptimisticCorrect(v) <==> PriceWentUp(v))
    ensures v.direction == Some("down") ==> (OptimisticCorrect(v) <==> !PriceWentUp(v))
    ensures v.direction != Some("up") && v.direction != Some("down") ==> !OptimisticCorrect(v)
    ensures v.direction == Some("down") && v.startPrice == Some(v.currentPrice) ==> OptimisticCorrect(v)
  {
    (v.direction == Some("up") && PriceWentUp(v)) || (v.direction == Some("down") && !PriceWentUp(v))
  }

  /** Points the optimistic update adds: +1 when judged correct, -1 otherwise. */
  function OptimisticDelta(v: ResolveVars): (d: int)
    ensures d == 1 <==> OptimisticCorrect(v)
    ensures d == 1 || d == -1
  {
    if OptimisticCorrect(v) then GameConfig.CorrectGuessPoints else GameConfig.IncorrectGuessPoints
  }

  /** The snapshot `onMutate` returns as its context. */
  datatype ResolveContext = ResolveContext(previousScore: Option<CacheValue>, previousGuess: Option<CacheValue>)

  /** The cache after `onMutate`: with no cached guess nothing changes; otherwise the
      score entry becomes the previous score plus the optimistic delta and the guess
      entry becomes null, every other entry staying as it was. */
  function OptimisticResolve(entries: Entries, v: ResolveVars): (e: Entries)
    ensures !CachedGuessPresent(entries, v.userId) ==> e == entries
    ensures CachedGuessPresent(entries, v.userId) ==>
      && e.Keys == entries.Keys + {QueryKeys.UserScore(v.userId)}
      && e[QueryKeys.UserScore(v.userId)] == ScoreValue(PreviousScore(entries, v.userId) + OptimisticDelta(v))
      && e[QueryKeys.ActiveGuess(v.userId)] == GuessValue(None)
      && !CachedGuessPresent(e, v.userId)
    ensures forall k :: k in entries && k != QueryKeys.UserScore(v.userId) && k != QueryKeys.ActiveGuess(v.userId) ==>
              k in e && e[k] == entries[k]
    ensures WellTyped(entries) ==> WellTyped(e)
  {
    if !CachedGuessPresent(entries, v.userId) then entries
    else
      entries[QueryKeys.UserScore(v.userId) := ScoreValue(PreviousScore(entries, v.userId) + OptimisticDelta(v))]
             [QueryKeys.ActiveGuess(v.userId) := GuessValue(None)]
  }

  /** Puts a snapshot back: the saved value, or no entry when there was none. */
  function Restore(entries: Entries, k: QueryKeys.QueryKey, saved: Option<CacheValue>): (e: Entries)
    ensures saved.Some? ==> k in e && e[k] == saved.value
    ensures saved.None? ==> k !in e
    ensures forall j :: j in entries && j != k ==> j in e && e[j] == entries[j]
    ensures e.Keys <= entries.Keys + {k}
  {
    if saved.Some? then entries[k := saved.value] else entries - {k}
  }

  /** The rollback a failed resolution calls for: both snapshotted entries restored. */
  function RolledBack(entries: Entries, v: ResolveVars, context: ResolveContext): Entries
  {
    Restore(Restore(entries, QueryKeys.UserScore(v.userId), context.previousScore),
            QueryKeys.ActiveGuess(v.userId), context.previousGuess)
  }

  /** Rolling back with the snapshot `onMutate` took undoes the optimistic update exactly. */
  lemma RollbackUndoesOptimisticResolve(entries: Entries, v: ResolveVars)
    ensures
      var context := ResolveContext(Lookup(entries, QueryKeys.UserScore(v.userId)),
                                    Lookup(entries, QueryKeys.ActiveGuess(v.userId)));
      RolledBack(OptimisticResolve(entries, v), v, context) == entries
  {
    var context := ResolveContext(Lookup(entries, QueryKeys.UserScore(v.userId)),
                                  Lookup(entries, QueryKeys.ActiveGuess(v.userId)));
    var after := RolledBack(OptimisticResolve(entries, v), v, context);
    QueryKeys.KeysAreDistinct(v.userId, v.userId);
    assert after.Keys == entries.Keys;
  }

  // ---------------------------------------------------------------- create mutation

  /** The variables of a create. */
  datatype MakeGuessVars = MakeGuessVars(userId: string, direction: Direction, currentPrice: real)

  /** What the create's `mutationFn` did: the outcome of the returned promise
      (the reply's `guessId` field on success), and whether it posted. */
  datatype MakeGuessRun = MakeGuessRun(result: Result<Option<string>, JsError>, posted: bool)

  const AlreadyActiveMessage: string := "You already have an active guess"

  /** The create's `mutationFn`: read the active guess first, refuse if one is
      reported, otherwise post. `post` is what the post would settle to. */
  function MakeGuessMutation(check: Result<ActiveGuessReply, JsError>, post: Result<Option<string>, JsError>)
    : (run: MakeGuessRun)
    ensures run.posted <==> check.Success? && check.value.activeGuess.None?
    ensures check.Failure? ==> run.result == Failure(check.error)
    ensures check.Success? && check.value.activeGuess.Some? ==>
              run.result == Failure(Plain("Error", AlreadyActiveMessage))
    ensures run.posted ==> run.result == post
  {
    match check
    case Failure(e) => MakeGuessRun(Failure(e), false)
    case Success(reply) =>
      if reply.activeGuess.Some? then MakeGuessRun(Failure(Plain("Error", AlreadyActiveMessage)), false)
      else MakeGuessRun(post, true)
  }

  /** The guess `onSuccess` writes: the reply's `guessId` (undefined when the reply
      has none), the requested direction, the price as start price, no expiry, unresolved. */
  function OptimisticGuess(vars: MakeGuessVars, replyGuessId: Option<string>): (g: ClientGuess)
    ensures g.userId == vars.userId && g.startPrice == vars.currentPrice && !g.resolved
    ensures g.direction == DirectionName(vars.direction) && g.expiresAt.None? && g.id == replyGuessId
  {
    ClientGuess(replyGuessId, vars.userId, DirectionName(vars.direction), vars.currentPrice, None, false)
  }

  // ---------------------------------------------------------------- active-guess query

  /** An error the active-guess code treats as "no active guess". */
  predicate IsNotFound(e: JsError)
  {
    e.ApiError? && e.status == Some(404)
  }

  /** The active-guess `queryFn`: the reply's guess (or null), a 404 read as null,
      and any other error rethrown. */
  function ActiveGuessQuery(reply: Result<ActiveGuessReply, JsError>): (r: Result<Option<ClientGuess>, JsError>)
    ensures reply.Success? ==> r == Success(reply.value.activeGuess)
    ensures reply.Failure? && IsNotFound(reply.error) ==> r == Success(None)
    ensures reply.Failure? && !IsNotFound(reply.error) ==> r == Failure(reply.error)
  {
    match reply
    case Success(body) => Success(body.activeGuess)
    case Failure(e) => if IsNotFound(e) then Success(None) else Failure(e)
  }

  /** Active-guess polling: every 5 s while a guess is cached, otherwise none (`false`). */
  function ActiveGuessRefetchInterval(data: Option<ClientGuess>): (ms: Option<int>)
    ensures ms.Some? <==> data.Some?
    ensures ms.Some? ==> ms.value == 5000
  {
    if data.Some? then Some(5000) else None
  }

  const ActiveGuessStaleTime: int := 10000
  const PriceStaleTime: int := 30000
  /** Price polling: twice the update interval. */
  const PriceRefetchInterval: int := GameConfig.PriceUpdateInterval * 2
  /** The create mutation is run once more after a failure, a second later. */
  const MakeGuessRetries: nat := 1
  const MutationRetryDelay: int := 1000

  // ---------------------------------------------------------------- retry policies

  /** The three retry predicates: active-guess query, resolve mutation, price query. */
  datatype RetryPolicy = ActiveGuessPolicy | ResolvePolicy | PricePolicy

  /** `retry(failureCount, error)`; the library passes 0 with the first failure. */
  predicate ShouldRetry(p: RetryPolicy, failureCount: nat, e: JsError)
    ensures p != PricePolicy && IsNotFound(e) ==> !ShouldRetry(p, failureCount, e)
    ensures p == ActiveGuessPolicy && !IsNotFound(e) ==> (ShouldRetry(p, failureCount, e) <==> failureCount < 2)
    ensures p == ResolvePolicy && !IsNotFound(e) ==> (ShouldRetry(p, failureCount, e) <==> failureCount < 3)
    ensures p == PricePolicy ==> (ShouldRetry(p, failureCount, e) <==> failureCount < 3)
  {
    match p
    case ActiveGuessPolicy => !IsNotFound(e) && failureCount < 2
    case ResolvePolicy => !IsNotFound(e) && failureCount < 3
    case PricePolicy => failureCount < 3
  }

  /** The most runs a policy allows: the first plus its retries. */
  function MaxRuns(p: RetryPolicy): nat
  {
    match p
    case ActiveGuessPolicy => 3
    case ResolvePolicy => 4
    case PricePolicy => 4
  }

  /** Runs made when run `i` fails with `errors[i]`, counting from run `k`;
      the list ending stands for a run that does not fail. */
  function Runs(p: RetryPolicy, errors: seq<JsError>, k: nat): nat
    requires k < |errors|
    decreases |errors| - k
  {
    if k + 1 < |errors| && ShouldRetry(p, k, errors[k]) then Runs(p, errors, k + 1) else k + 1
  }

  /** However the runs fail, a query or mutation is run at most `MaxRuns` times,
      a leading 404 stops the active-guess query and the resolve mutation at
      once, and with enough failures and no 404 the budget is used up exactly. */
  lemma {:induction false} RetryBudget(p: RetryPolicy, errors: seq<JsError>, k: nat)
    requires k < |errors| && k < MaxRuns(p)
    ensures k < Runs(p, errors, k) <= MaxRuns(p)
    ensures p != PricePolicy && IsNotFound(errors[k]) ==> Runs(p, errors, k) == k + 1
    ensures |errors| >= MaxRuns(p) && (forall i :: k <= i < |errors| ==> !IsNotFound(errors[i])) ==>
              Runs(p, errors, k) == MaxRuns(p)
    decreases |errors| - k
  {
    if k + 1 < |errors| && ShouldRetry(p, k, errors[k]) {
      RetryBudget(p, errors, k + 1);
    }
  }

  /** Price query backoff: 1 s doubling per failure, capped at 30 s. */
  function PriceRetryDelay(attemptIndex: nat): (ms: int)
    ensures 1000 <= ms <= 30000
    ensures attemptIndex <= 4 ==> ms == 1000 * Pow2(attemptIndex)
    ensures attemptIndex >= 5 ==> ms == 30000
  {
    if attemptIndex >= 5 then
      Pow2Monotone(5, attemptIndex);
      Min(1000 * Pow2(attemptIndex), 30000)
    else
      Min(1000 * Pow2(attemptIndex), 30000)
  }

  /** The price query result: the reply's price stamped with the local clock. */
  function PriceQuery(reply: Result<real, JsError>, now: int): (r: Result<PricePoint, JsError>)
    ensures reply.Success? ==> r == Success(PricePoint(reply.value, now))
    ensures reply.Failure? ==> r == Failure(reply.error)
  {
    match reply
    case Success(price) => Success(PricePoint(price, now))
    case Failure(e) => Failure(e)
  }

  // ---------------------------------------------------------------- the cache

  /** The query cache as these hooks use it: the entries, and the log of
      `invalidateQueries` calls (each marks a key stale and refetches it). */
  class QueryCache {
    var entries: Entries
    var invalidated: seq<QueryKeys.QueryKey>

    ghost predicate Valid()
      reads this
    {
      WellTyped(entries)
    }

    constructor ()
      ensures Valid() && entries == map[] && invalidated == []
    {
      entries := map[];
      invalidated := [];
    }

    /** A socket update (`handlePriceUpdate`) or a price query result: replaces the price entry. */
    method SetPrice(point: PricePoint)
      requires Valid()
      modifies this
      ensures Valid()
      ensures entries == old(entries)[QueryKeys.Price() := PriceValue(point)]
      ensures invalidated == old(invalidated)
    {
      entries := entries[QueryKeys.Price() := PriceValue(point)];
    }

    /** An active-guess query settles: its data replaces the entry; an error leaves the entry. */
    method ActiveGuessFetched(userId: string, reply: Result<ActiveGuessReply, JsError>)
      requires Valid()
      modifies this
      ensures Valid()
      ensures ActiveGuessQuery(reply).Success? ==>
                entries == old(entries)[QueryKeys.ActiveGuess(userId) := GuessValue(ActiveGuessQuery(reply).value)]
      ensures ActiveGuessQuery(reply).Failure? ==> entries == old(entries)
      ensures invalidated == old(invalidated)
    {
      var data := ActiveGuessQuery(reply);
      if data.Success? {
        entries := entries[QueryKeys.ActiveGuess(userId) := GuessValue(data.value)];
      }
    }

    /** Create `onSuccess`: write the optimistic guess, then invalidate its key. */
    method MakeGuessSucceeded(vars: MakeGuessVars, replyGuessId: Option<string>)
      requires Valid()
      modifies this
      ensures Valid()
      ensures entries == old(entries)[QueryKeys.ActiveGuess(vars.userId) := GuessValue(Some(OptimisticGuess(vars, replyGuessId)))]
      ensures invalidated == old(invalidated) + [QueryKeys.ActiveGuess(vars.userId)]
    {
      var guess := ClientGuess(replyGuessId, vars.userId, DirectionName(vars.direction), vars.currentPrice, None, false);
      entries := entries[QueryKeys.ActiveGuess(vars.userId) := GuessValue(Some(guess))];
      invalidated := invalidated + [QueryKeys.ActiveGuess(vars.userId)];
    }

    /** Create `onError`: no snapshot is restored; the key is invalidated. */
    method MakeGuessFailed(vars: MakeGuessVars)
      requires Valid()
      modifies this
      ensures Valid()
      ensures entries == old(entries)
      ensures invalidated == old(invalidated) + [QueryKeys.ActiveGuess(vars.userId)]
    {
      invalidated := invalidated + [QueryKeys.ActiveGuess(vars.userId)];
    }

    /** Resolve `onMutate`: snapshot both entries; with a cached guess, apply the
      optimistic score and clear the guess. */
    method ResolveMutate(v: ResolveVars) returns (context: ResolveContext)
      requires Valid()
      modifies this
      ensures Valid()
      ensures context == ResolveContext(Lookup(old(entries), QueryKeys.UserScore(v.userId)),
                                        Lookup(old(entries), QueryKeys.ActiveGuess(v.userId)))
      ensures entries == OptimisticResolve(old(entries), v)
      ensures invalidated == old(invalidated)
    {
      var scoreKey, guessKey := QueryKeys.UserScore(v.userId), QueryKeys.ActiveGuess(v.userId);
      var previousScore := if scoreKey in entries then Some(entries[scoreKey]) else None;
      var previousGuess := if guessKey in entries then Some(entries[guessKey]) else None;
      context := ResolveContext(previousScore, previousGuess);
      if previousGuess.None? || previousGuess == Some(GuessValue(None)) {
        return;
      }
      var wentUp := v.startPrice.Some? && v.currentPrice > v.startPrice.value;
      var correct := (v.direction == Some("up") && wentUp) || (v.direction == Some("down") && !wentUp);
      var oldScore := if previousScore.Some? && previousScore.value.ScoreValue? then previousScore.value.score else 0;
      var points := if correct then GameConfig.CorrectGuessPoints else GameConfig.IncorrectGuessPoints;
      entries := entries[scoreKey := ScoreValue(oldScore + points)];
      entries := entries[guessKey := GuessValue(None)];
    }

    /** Resolve `onSuccess`: invalidate the guess key, then the score key. */
    method ResolveSucceeded(v: ResolveVars)
      requires Valid()
      modifies this
      ensures Valid()
      ensures entries == old(entries)
      ensures invalidated == old(invalidated) + [QueryKeys.ActiveGuess(v.userId), QueryKeys.UserScore(v.userId)]
    {
      invalidated := invalidated + [QueryKeys.ActiveGuess(v.userId)];
      invalidated := invalidated + [QueryKeys.UserScore(v.userId)];
    }

    /** Resolve `onError` as written: it only logs, so the optimistic entries stay. */
    method ResolveFailed(v: ResolveVars, context: ResolveContext)
      requires Valid()
      ensures entries == old(entries) && invalidated == old(invalidated)
    {
    }

    /** Resolve `onError` as its snapshot evidently intends: put both entries back. */
    method ResolveFailedRollback(v: ResolveVars, context: ResolveContext)
      requires Valid()
      requires context.previousScore.Some? ==> context.previousScore.value.ScoreValue?
      requires context.previousGuess.Some? ==> context.previousGuess.value.GuessValue?
      modifies this
      ensures Valid()
      ensures entries == RolledBack(old(entries), v, context)
      ensures invalidated == old(invalidated)
    {
      var scoreKey, guessKey := QueryKeys.UserScore(v.userId), QueryKeys.ActiveGuess(v.userId);
      if context.previousScore.Some? {
        entries := entries[scoreKey := context.previousScore.value];
      } else {
        entries := entries - {scoreKey};
      }
      if context.previousGuess.Some? {
        entries := entries[guessKey := context.previousGuess.value];
      } else {
        entries := entries - {guessKey};
      }
    }
  }
}
