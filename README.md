# Bitcoin price prediction game — a Dafny model

A player predicts whether the Bitcoin price will go up or down. After a
60-second countdown the guess is resolved against the live price. A right
guess scores +1 and a wrong one −1.

The model covers the game's core on both sides of the wire:

- **Server (AWS Lambda handlers).**
  - make-guess: the creation guard.
  - resolve-guess: the resolution engine.
  - score: the score read with lazy creation.
  - active-guess: the read path.
  - btc-price: a price endpoint with a 15-second cache and ordered provider fallback.

  The two DynamoDB tables are maps keyed by user id inside `Server.GameServer`. Each handler is:
  - a method on that class;
  - proved equal to a pure function that states the handler's contract (`MakeGuess.Handle`, `ResolveGuess.Handle`, `ScoreHandler.Handle`, `ActiveGuessHandler.Handle`);
  - related to the other handlers across calls by the lemmas in `Lifecycle`.
- **Browser client.**
  - The HTTP client's retry loop (`ApiClient`).
  - URL building (`ApiConfig`, `BitcoinService`).
  - The query keys (`QueryKeys`).
  - The query cache and its optimistic updates, plus the retry policies of the data hooks (`BitcoinData`).
  - The countdown cards with their "resolve once" trigger (`ActiveGuessView`).
  - The prediction card's guard (`PredictionCard`).
  - The price socket's reconnect backoff (`PriceSocket`).
  - The countdown text (`TimeFormat`).
- **`Reconciliation`** connects the two sides. The ActiveGuess card's optimistic score change equals the server's verdict whenever its trigger fires. The two places where client and server disagree are listed under "## Findings".

Modelling conventions:

- The clock, the random guess id, provider replies and store failures are parameters. Store failures are boolean fault flags that say which store call throws.
- Prices are `real`, since only comparisons are used. Times and scores are `int`.
- JavaScript truthiness of request fields is explicit: an absent field, `""` and `0` are falsy (`PresentString`, `PresentNumber`).

The model follows the code as written where the code differs from the project's own description. The resolve handler reassigns `newScore` before the score write. So when only the score write fails, the reported score is the previous score plus the delta. The bare delta is reported only when the score read fails.

## Model

| member | source | states |
|---|---|---|
| MakeGuess.ExpiresAt | lambda/make-guess.js:64-67 | the stored expiry is the creation time plus 60000 ms, floored to whole epoch seconds |
| MakeGuess.NewGuess | lambda/make-guess.js:69-76 | the stored row carries the body's user id and direction, the body's price as start price, the generated id, the creation time and the floored expiry |
| MakeGuess.Handle | lambda/make-guess.js:10-110 | OPTIONS gives the preflight; a falsy user id, direction or price gives 400 "Missing required data"; an existing guess gives 400 "You already have an active guess" unless the existence check threw; otherwise the new row is written under the user id and echoed; only a failing write gives 500; nothing is written unless a guess was created |
| ResolveGuess.IsCorrect | lambda/resolve-guess.js:63-64 | up is right iff the price rose strictly, down iff it fell strictly; equal prices and any other direction are wrong |
| ResolveGuess.ScoreDelta | lambda/resolve-guess.js:66 | +1 exactly for a correct guess, −1 otherwise |
| ResolveGuess.UpdateScore | lambda/resolve-guess.js:71-108 | with both score calls working, the row becomes the previous score (0 without a row) plus the delta; a failing read leaves the table and reports the bare delta; a failing write leaves the table and reports previous plus delta; other users' rows are untouched |
| ResolveGuess.Handle | lambda/resolve-guess.js:10-149 | 400 for a falsy field, 404 when no stored guess has the body's id, both tables unchanged in those cases; otherwise the score step runs, the guess row is deleted and the result echoes correctness, score, start price, end price, direction and duration; a failing delete gives 500 after the score write |
| ScoreHandler.Handle | lambda/score.js:9-111 | a missing user id gives 400; an existing row is returned and never overwritten; a throwing first read gives 500; an absent row is created with score 0 and returned; a lost conditional create returns the other writer's row; other write failures give 500 |
| ActiveGuessHandler.Handle | lambda/active-guess.js:9-68 | a missing user id gives 400; otherwise the stored guess or null, with no write; a failing read gives 500 |
| Server.GameServer.PostMakeGuess | lambda/make-guess.js:24-109 | the store calls in order leave the guesses table and the response as `MakeGuess.Handle` says, and the score table untouched |
| Server.GameServer.PostResolveGuess | lambda/resolve-guess.js:24-148 | the get, get/put and delete calls in order leave both tables and the response as `ResolveGuess.Handle` says |
| Server.GameServer.GetScore | lambda/score.js:23-110 | the read, conditional create and re-read leave the score table and the response as `ScoreHandler.Handle` says |
| Server.GameServer.GetActiveGuess | lambda/active-guess.js:23-67 | the read returns what `ActiveGuessHandler.Handle` says and changes nothing |
| Lifecycle.StepPreservesWellFormed | lambda/make-guess.js:69-84 | every handler call keeps each row filed under its own user id and each guess's expiry derived from its creation time |
| Lifecycle.RunPreservesWellFormed | lambda/make-guess.js:79-84 | any sequence of handler calls, with any faults, keeps that invariant |
| Lifecycle.StepMovesScoreByAtMostOne | lambda/resolve-guess.js:92-103 | only resolve-guess changes a score, and by at most one point per call |
| Lifecycle.RunMovesScoreByAtMostResolves | lambda/resolve-guess.js:92-103 | over any sequence of calls a user's score moves by at most the number of resolve calls |
| Lifecycle.GuessReplacedOnlyAfterFailedCheck | lambda/make-guess.js:41-61 | a stored guess is replaced only by a make-guess call whose existence check threw |
| Lifecycle.SecondResolveNotFound | lambda/resolve-guess.js:47-116 | after a successful resolution, repeating the same request finds no guess and gets 404 |
| Lifecycle.SecondCreateRefused | lambda/make-guess.js:49-58 | a second create for the same user is refused with the first guess kept |
| Lifecycle.FailedCheckOverwrites | lambda/make-guess.js:59-61 | when the existence check throws, a create overwrites the stored guess and the old guess id then resolves to 404 |
| Lifecycle.DeleteFailureThenRetryCountsTwice | lambda/resolve-guess.js:111-116 | a failing delete gives 500 after the score was written and leaves the guess, so a retry is accepted and moves the score twice |
| Lifecycle.ScoreReadIsStable | lambda/score.js:43-97 | a second score read returns the first read's row and writes nothing |
| Lifecycle.PlayRoundScenarios | lambda/resolve-guess.js:63-66 | create then resolve with no failures: an up guess settled higher scores +1 and reports the elapsed time; lower or equal scores −1; a down guess at an equal price is wrong |
| ApiClient.IsRetryableError | src/lib/apiClient.ts:27-33 | retryable exactly for an AbortError, a TypeError mentioning fetch, and an ApiError with status 500 or more |
| ApiClient.RetryDelay | src/lib/apiClient.ts:36-38 | the wait is 1000·2^a ms for a ≤ 3 and 10000 ms after that, always between 1 s and 10 s |
| ApiClient.RetryDelayMonotone | src/lib/apiClient.ts:36-38 | a later retry never waits less than an earlier one |
| ApiClient.ResponseError | src/lib/apiClient.ts:66-76 | a non-ok response becomes an ApiError with its status and the body's message, else its error, else "Request failed with status N" |
| ApiClient.Settle | src/lib/apiClient.ts:84-93 | an attempt settles to success exactly for an ok response; a rejection settles to that rejection |
| ApiClient.Examine | src/lib/apiClient.ts:53-95 | one attempt stops the loop exactly on success, on an error it must not retry, or on a rejection in the last attempt |
| ApiClient.FetchWithRetry | src/lib/apiClient.ts:43-104 | 1 to maxRetries+1 fetches; the outcome is the last fetch's; every earlier fetch was worth retrying; stopping early means success or a final error; one backoff wait of `RetryDelay(i)` between consecutive fetches and none after the last |
| ApiClient.VerbsShareAddress | src/lib/apiClient.ts:106-130 | get, post, delete and patch address base URL + endpoint with their own verb; only post and patch carry the data as body |
| ApiConfig.BaseUrl | src/config/api.ts:7-9 | the gateway URL in production builds, "/" otherwise |
| ApiConfig.ApiBaseUrl | src/config/api.ts:34-42 | a non-empty override wins, else the build's base URL |
| ApiConfig.VersionedEndpoint | src/config/api.ts:45-50 | succeeds iff the version is absent or active, giving "/v1/" + endpoint; otherwise fails with "API version V is not active" |
| ApiConfig.DefaultVersionIsActive | src/config/api.ts:24-30 | the default version never throws; any version other than v1 does |
| BitcoinService.Service.GetActiveGuess | src/services/bitcoin/bitcoinService.ts:19-22 | GET "/v1/active-guess?userId=" + id, failing exactly when the pinned version is inactive |
| BitcoinService.Service.GetUserScore | src/services/bitcoin/bitcoinService.ts:24-27 | GET "/v1/score?userId=" + id under the same version rule |
| BitcoinService.Service.GetBitcoinPrice | src/services/bitcoin/bitcoinService.ts:29-32 | GET "/v1/btc-price" under the same version rule |
| BitcoinService.Service.MakeGuess | src/services/bitcoin/bitcoinService.ts:34-41 | POST {userId, direction, currentPrice} to "/v1/make-guess" under the same version rule |
| BitcoinService.Service.ResolveGuess | src/services/bitcoin/bitcoinService.ts:43-50 | POST {userId, guessId, currentPrice} to "/v1/resolve-guess" under the same version rule |
| BitcoinService.PostedBodiesMeetHandlerValidation | src/services/bitcoin/bitcoinService.ts:34-50 | a posted body passes the handler's validation exactly when its user id (and guess id) is non-empty and its price non-zero |
| BitcoinService.DevelopmentUrlsStartWithDoubleSlash | src/config/api.ts:7-9 | in a development build without override the requested URLs start with "//v1/" |
| QueryKeys.UserScore | src/lib/queryKeys.ts:6 | a three-part key ending in the user id |
| QueryKeys.ActiveGuess | src/lib/queryKeys.ts:7 | a three-part key ending in the user id |
| QueryKeys.KeysUnderNamespace | src/lib/queryKeys.ts:3-8 | every key starts with the "bitcoin" namespace key |
| QueryKeys.KeysAreDistinct | src/lib/queryKeys.ts:5-7 | the key constructors are injective in the user, and score, guess and price keys never collide |
| TimeFormat.CeilSeconds | src/utils/formatTime.ts:2 | the smallest whole number of seconds covering the milliseconds |
| TimeFormat.FormatTime | src/hooks/bitcoin/useBitcoinUtils.ts:11-14 | the rounded-up seconds in decimal followed by "s", never negative for a non-negative count |
| TimeFormat.FormatTimeExamples | src/utils/__tests__/formatTime.test.ts:5-9 | 1000 → "1s", 2000 → "2s", 1500 → "2s", 500 → "1s", 0 → "0s" |
| TimeFormat.CeilSecondsMonotone | src/utils/formatTime.ts:1-4 | more time left never shows fewer seconds |
| BitcoinData.PreviousScore | src/hooks/bitcoin/useBitcoinData.ts:203 | `old?.score \|\| 0`: the cached score, or 0 without one |
| BitcoinData.OptimisticCorrect | src/hooks/bitcoin/useBitcoinData.ts:195-196 | up is right iff the price rose; down is right whenever it did not, including at an unchanged price |
| BitcoinData.OptimisticDelta | src/hooks/bitcoin/useBitcoinData.ts:203 | +1 exactly when judged correct, −1 otherwise |
| BitcoinData.OptimisticResolve | src/hooks/bitcoin/useBitcoinData.ts:178-215 | without a cached guess nothing changes; otherwise the score entry becomes previous + delta, the guess entry null, every other entry stays, and the cache stays well typed |
| BitcoinData.Restore | src/hooks/bitcoin/useBitcoinData.ts:186-187 | a snapshotted entry is put back, or removed when there was none, other entries untouched |
| BitcoinData.RollbackUndoesOptimisticResolve | src/hooks/bitcoin/useBitcoinData.ts:186-214 | restoring the snapshot `onMutate` takes gives back exactly the cache before the optimistic update |
| BitcoinData.MakeGuessMutation | src/hooks/bitcoin/useBitcoinData.ts:105-111 | the create posts exactly when the check reports no guess; a reported guess fails with "You already have an active guess"; a failing check fails with its error |
| BitcoinData.OptimisticGuess | src/hooks/bitcoin/useBitcoinData.ts:117-126 | the guess written on create success: the requested direction, the price as start price, unresolved, no expiry, the reply's guess id |
| BitcoinData.ActiveGuessQuery | src/hooks/bitcoin/useBitcoinData.ts:59-69 | the reply's guess or null; a 404 reads as null; any other error is rethrown |
| BitcoinData.ActiveGuessRefetchInterval | src/hooks/bitcoin/useBitcoinData.ts:74-77 | polls every 5000 ms exactly while a guess is cached |
| BitcoinData.ShouldRetry | src/hooks/bitcoin/useBitcoinData.ts:78-85 | active guess: never on 404, else while fewer than 2 failures; resolve: never on 404, else fewer than 3; price: fewer than 3 |
| BitcoinData.RetryBudget | src/hooks/bitcoin/useBitcoinData.ts:230-237 | a query or mutation runs at most 3 (active guess) or 4 (resolve, price) times, a 404 stops at once, and with enough non-404 failures the budget is used exactly |
| BitcoinData.PriceRetryDelay | src/hooks/bitcoin/useBitcoinData.ts:50 | the price backoff is 1000·2^a ms up to a = 4 and 30000 ms after, always between 1 s and 30 s |
| BitcoinData.PriceQuery | src/hooks/bitcoin/useBitcoinData.ts:29-37 | the fetched price stamped with the local clock; errors pass through |
| BitcoinData.QueryCache.SetPrice | src/hooks/bitcoin/useBitcoinData.ts:15-17 | a socket update replaces only the price entry |
| BitcoinData.QueryCache.ActiveGuessFetched | src/hooks/bitcoin/useBitcoinData.ts:57-70 | a settled active-guess query writes its data into its key; an error leaves the cache |
| BitcoinData.QueryCache.MakeGuessSucceeded | src/hooks/bitcoin/useBitcoinData.ts:113-132 | writes the optimistic guess under the user's key, then invalidates that key |
| BitcoinData.QueryCache.MakeGuessFailed | src/hooks/bitcoin/useBitcoinData.ts:133-145 | restores nothing and invalidates the user's guess key |
| BitcoinData.QueryCache.ResolveMutate | src/hooks/bitcoin/useBitcoinData.ts:178-215 | returns the snapshot of score and guess entries and leaves the cache as `OptimisticResolve` says |
| BitcoinData.QueryCache.ResolveSucceeded | src/hooks/bitcoin/useBitcoinData.ts:219-229 | invalidates the guess key, then the score key, without touching entries |
| BitcoinData.QueryCache.ResolveFailed | src/hooks/bitcoin/useBitcoinData.ts:216-218 | as written: the cache is left as the optimistic update made it |
| BitcoinData.QueryCache.ResolveFailedRollback | src/hooks/bitcoin/useBitcoinData.ts:185-192 | as evidently intended: the snapshot is restored, so the cache is as `RolledBack` says |
| ActiveGuessView.ShowWaiting | src/components/game/ActiveGuess/ActiveGuess.tsx:106 | the waiting note appears only at zero time left with an unmoved price, when the trigger holds back and no verdict shows; at expiry an unresolved guess with a price either waits or is resolved |
| ActiveGuessView.GuessTimer.WaitingShown | src/components/game/ActiveGuessDisplay/index.tsx:182-184 | the card's note is shown only at zero time left, while the trigger does not fire and no verdict is shown |
| ActiveGuessView.PredictionStatus | src/components/game/ActiveGuess/ActiveGuess.tsx:33-43 | no status without a price or at the start price; otherwise correct iff (price > start) equals (direction is up) |
| ActiveGuessView.Remaining | src/components/game/ActiveGuess/ActiveGuess.tsx:48-50 | never negative; zero exactly once the clock reaches the expiry |
| ActiveGuessView.Progress | src/components/game/ActiveGuess/ActiveGuess.tsx:52-53 | the remaining share of the 60000 ms window as a percentage, within [0, 100] |
| ActiveGuessView.ResolvePayload | src/components/game/ActiveGuess/ActiveGuess.tsx:59-65 | the mutate payload carries the guess's id, start price and direction and the price that ended the countdown |
| ActiveGuessView.FiresAtMostOnce | src/components/game/ActiveGuess/ActiveGuess.tsx:57-65 | any run of ticks for one guess makes at most one resolve call, none once started, carrying the guess's own data |
| ActiveGuessView.FiringNeedsExpiryAndMove | src/components/game/ActiveGuess/ActiveGuess.tsx:57 | no tick before the expiry, without a price, at the start price or for a resolved guess ever fires |
| ActiveGuessView.GuessTimer.UpdateTimeDisplay | src/components/game/ActiveGuess/ActiveGuess.tsx:45-68 | updates remaining, progress and text; fires the trigger at most when its guard holds, setting the flag, clearing the status and appending the payload |
| ActiveGuessView.GuessTimer.GuessIdChanged | src/components/game/ActiveGuess/ActiveGuess.tsx:98-100 | clears the started flag and nothing else |
| ActiveGuessView.GuessTimer.PriceChanged | src/components/game/ActiveGuess/ActiveGuess.tsx:102-104 | sets the status to `PredictionStatus` and nothing else |
| ActiveGuessView.GuessTimer.RunTicks | src/components/game/ActiveGuess/ActiveGuess.tsx:82-96 | the interval over many ticks appends exactly the resolve calls `Fired` lists, so at most one |
| ActiveGuessView.DisplayResolvePayload | src/components/game/ActiveGuessDisplay/index.tsx:148-152 | the older card's payload: id and price only, start price and direction undefined |
| ActiveGuessView.DisplayTimer.UpdateTimeDisplay | src/components/game/ActiveGuessDisplay/index.tsx:131-156 | the same countdown over a fixed 60000 ms window, guarded by the resolving flag, appending the narrower payload |
| ActiveGuessView.DisplayTimer.GuessIdChanged | src/components/game/ActiveGuessDisplay/index.tsx:174-176 | clears the resolving flag and nothing else |
| ActiveGuessView.DisplayTimer.PriceChanged | src/components/game/ActiveGuessDisplay/index.tsx:118-129 | the same status rule as the newer card |
| PredictionCard.IsDisabled | src/components/game/PredictionCard/PredictionCard.tsx:55 | every click the guard refuses for a missing user or offline comes from a disabled button; a zero price leaves the buttons enabled although the guard ignores the click |
| PredictionCard.EnabledButtonsPassGuardUnlessZeroPrice | src/components/game/PredictionCard/PredictionCard.tsx:41-55 | enabled buttons imply a user and a connection; the click guard then refuses only a zero price |
| PredictionCard.Card.constructor | src/components/game/PredictionCard/PredictionCard.tsx:22-27 | no direction, no calls, offline flag the negation of the browser's online state |
| PredictionCard.Card.Online | src/components/game/PredictionCard/PredictionCard.tsx:28 | the online event clears the offline flag only |
| PredictionCard.Card.Offline | src/components/game/PredictionCard/PredictionCard.tsx:29 | the offline event sets the offline flag only |
| PredictionCard.Card.HandleMakeGuess | src/components/game/PredictionCard/PredictionCard.tsx:40-53 | without a non-zero price, a user or a connection nothing happens; otherwise the direction is recorded and one create call with user, direction and price is made |
| PredictionCard.ClicksAreOnePerAcceptedClick | src/components/game/PredictionCard/PredictionCard.tsx:40-53 | a run of clicks makes one call per click carrying its direction and the shown price, or none when the guard refuses |
| PredictionCard.ClickAll | src/components/game/PredictionCard/PredictionCard.tsx:40-53 | clicking through a run of directions appends exactly `Clicks` |
| PriceSocket.DelayAfter | src/services/bitcoin/websocketService.ts:65-66 | the backoff delay always lies between one and thirty seconds |
| PriceSocket.DelayDoubles | src/services/bitcoin/websocketService.ts:65-66 | after k scheduled reconnects the delay is 1000·2^k ms up to k = 4, then the 30000 ms cap |
| PriceSocket.ReconnectsAreBounded | src/services/bitcoin/websocketService.ts:56-69 | however often the socket closes, at most five reconnects are scheduled from a fresh connection, the i-th after `DelayAfter(i)` |
| PriceSocket.ScheduledDelayAt | src/services/bitcoin/websocketService.ts:56-69 | the i-th reconnect scheduled after k earlier ones waits `DelayAfter(k + i)` |
| PriceSocket.FreshScheduleIsDoubling | src/services/bitcoin/websocketService.ts:56-69 | seven closes in a row schedule reconnects after 1, 2, 4, 8 and 16 seconds and no more |
| PriceSocket.Service.constructor | src/services/bitcoin/websocketService.ts:6-14 | connects at once with no attempts, no callback and nothing scheduled |
| PriceSocket.Service.OnOpen | src/services/bitcoin/websocketService.ts:49-53 | resets attempts to 0 and the delay to 1000 ms |
| PriceSocket.Service.OnClose | src/services/bitcoin/websocketService.ts:39-42 | schedules one reconnect at the current delay and counts it while fewer than five were made, otherwise nothing |
| PriceSocket.Service.ReconnectTimerFired | src/services/bitcoin/websocketService.ts:16-22 | the timer opens a new socket and keeps the backoff state |
| PriceSocket.Service.Subscribe | src/services/bitcoin/websocketService.ts:72-74 | stores the callback only |
| PriceSocket.Service.Unsubscribe | src/services/bitcoin/websocketService.ts:76-78 | clears the callback only |
| PriceSocket.Service.Disconnect | src/services/bitcoin/websocketService.ts:80-85 | drops the socket only |
| PriceSocket.Service.OnMessage | src/services/bitcoin/websocketService.ts:24-37 | a frame with a non-empty price goes to the subscriber, if any, stamped with the clock; anything else is dropped |
| PriceSocket.UnsubscribedDropsMessages | src/services/bitcoin/websocketService.ts:76-78 | after unsubscribing no message is delivered |
| BtcPrice.FromCoinbase | lambda/btc-price.js:63-99 | accepted iff the rates path holds a non-empty USD text whose parsed rate is a positive number; a missing path fails with "Invalid response structure from Coinbase" |
| BtcPrice.FromGecko | lambda/btc-price.js:102-135 | accepted iff the body's usd is a number; the 24 h change defaults to 0 |
| BtcPrice.FromBinance | lambda/btc-price.js:138-163 | any parsed body is accepted, NaN included |
| BtcPrice.Fallback | lambda/btc-price.js:53-177 | a fresh cache answers without any provider; otherwise Coinbase, CoinGecko and Binance are asked in order and the first success is cached and returned; with all failing, a cache younger than five minutes is returned marked stale, else an error listing each failure in order |
| BtcPrice.FetchedPriceIsReusedWithinTtl | lambda/btc-price.js:57-60 | a fetched price is served again to every call in the next 15 seconds without asking any provider |
| BtcPrice.ExpiredCacheAsksAgain | lambda/btc-price.js:57-65 | once the cache is 15 seconds old, the next call asks a provider |
| BtcPrice.PriceFeed.FetchWithFallback | lambda/btc-price.js:53-177 | the step-by-step chain leaves the cache and returns the result as `Fallback` says |
| BtcPrice.PriceFeed.Handle | lambda/btc-price.js:179-239 | OPTIONS answers without fetching; otherwise a price, or the failure's text as details |
| BtcPrice.Response.Status | lambda/btc-price.js:182-219 | 503 exactly for a failure, 200 otherwise |
| BtcPrice.Response.RetryAfter | lambda/btc-price.js:223-230 | a 60-second retry hint exactly on failure |
| Reconciliation.OptimisticAgreesWithServerWhenPriceMoved | src/hooks/bitcoin/useBitcoinData.ts:194-203 | with the ActiveGuess payload and a moved price, the optimistic score change equals the server's |
| Reconciliation.DownAtUnchangedPriceDisagrees | src/hooks/bitcoin/useBitcoinData.ts:195-196 | at an unchanged price a down guess gains a point in the cache and loses one on the server |
| Reconciliation.TriggeredResolveAgrees | src/components/game/ActiveGuess/ActiveGuess.tsx:57-65 | every resolution the ActiveGuess card starts gets the server's score change in the cache |
| Reconciliation.DisplayPayloadMisjudgesWinningGuess | src/components/game/ActiveGuessDisplay/index.tsx:146-155 | the older card's resolution of a winning up guess takes a point in the cache while the server adds one |
| Reconciliation.FailedResolveKeepsOptimisticEntries | src/hooks/bitcoin/useBitcoinData.ts:216-218 | after a failed resolution the cached score has moved and the cached guess is gone; the unused snapshot would restore both |
| Reconciliation.ClientView | src/hooks/bitcoin/useBitcoinData.ts:59-62 | a stored guess reaches the client with its id, direction, start price and expiry, unresolved |
| Reconciliation.CreateRetryAfterLostReplyRefused | src/hooks/bitcoin/useBitcoinData.ts:105-111 | after a create that stored its guess, the single retry (lines 146-147) reads that guess back and fails with "You already have an active guess" without posting; a repeated post would be refused by the handler (lambda/make-guess.js:49-58) with the first guess kept |
| Reconciliation.OptimisticGuessNeverFires | src/hooks/bitcoin/useBitcoinData.ts:117-126 | the guess written on create success has no expiry, so no tick resolves it until the refetch replaces it |

## Left out

- Network and storage I/O are not modelled: DynamoDB calls, `https.get`, `fetch`, timeouts and abort controllers, the browser WebSocket and the DOM. Each becomes an outcome parameter or a fault flag.
- CORS headers, the `_metadata` version block, `Cache-Control` and the `currency` field of responses are left out. So are ISO timestamps (`createdAt`, `updatedAt`) and console logging.
- Concurrency is not modelled. Handler calls are taken one after another. A row created by a concurrent score request is the `rival` parameter.
- The random guess id (`Math.random`) is a parameter. The user id derivation in src/lib/userId.ts is not part of this model.
- Floating point is not modelled:
  - `parseFloat` of feed data is taken as already parsed (`Number`, `parsed`).
  - Price formatting via `Intl` is left out.
  - Prices are exact reals.
- TanStack Query's scheduling is not modelled: stale times, garbage collection, refetch on focus, and what `invalidateQueries` refetches. Invalidation is recorded as a log of keys. The retry predicates, delays and the refetch interval are modelled as the functions the hooks pass to the library. The create mutation's single retry after one second is not a function; its effect on a lost reply is stated by `Reconciliation.CreateRetryAfterLostReplyRefused`.
- `BitcoinData.ActiveGuessRefetchInterval`: takes the cached guess as its argument, as the source names it. It does not model the query object that TanStack Query v5 actually passes.
- Rendering is not modelled: the chip's styling, the emoji, the progress bar's CSS and the GuessHeader. So is the `timeRemainingRef.current` check that skips ticks before the element is mounted.
- The pending flag of the create mutation (`isPending`) is an argument of `PredictionCard.IsDisabled`, not state.
- User ids are put into query strings without URL encoding, as the source does. Strings are compared as sequences of characters.
- The make-guess reply has no `guessId` field. `BitcoinData.OptimisticGuess` therefore gets `None` from that reply.
- The expectations of a `&t=` suffix in the service's test file do not match the service and are not stated.
- The client's `pointsPerIncorrectGuess` (0, src/config/game.ts:22) contradicts `incorrectGuessPoints` (−1) and the server. Nothing reads it, so the model has no member for it; the comment on `ResolveGuess.ScoreDelta` records the disagreement.
- The price hook's polling interval is `priceUpdateInterval * 2` = 2000 ms, although its comment says 20 seconds. The model uses the code's value.
- TimeFormat.FormatTime: takes whole milliseconds. A fractional millisecond count is not modelled.
- PriceSocket.Service.OnMessage: the trade price is taken as given. The model does not follow `parseFloat`, so a non-numeric `p` delivering NaN is not distinguished.

## Findings

| source | as written | input that shows it | evidently intended | confidence | as-written member | corrected member |
|---|---|---|---|---|---|---|
| src/components/game/ActiveGuessDisplay/index.tsx:148-152 | the older card calls the resolve mutation with only user id, guess id and price, so the optimistic verdict compares with an undefined start price and direction and always takes a point | an up guess started at 50000 and settled at 51000: the server adds a point, the cached score drops by one until the refetch that a successful resolution triggers | pass the start price and direction as src/components/game/ActiveGuess/ActiveGuess.tsx:59-65 does | not executed; follows from the payload and src/hooks/bitcoin/useBitcoinData.ts:195-203 | Reconciliation.DisplayPayloadMisjudgesWinningGuess | Reconciliation.TriggeredResolveAgrees |
| src/hooks/bitcoin/useBitcoinData.ts:216-218 | the resolve mutation's `onError` only logs; the snapshot `onMutate` returns is never restored and no key is invalidated | a cached guess and score 5, and a resolve rejected with 500 on every retry: the cache shows 4 or 6 with no guess while the server still holds score 5 and the guess | restore the snapshotted score and guess on error | not executed; medium, inferred from the snapshot and its comment | Reconciliation.FailedResolveKeepsOptimisticEntries | BitcoinData.RollbackUndoesOptimisticResolve |
