/** The countdown card of an active guess: what it shows (time left, progress,
    a live verdict, the waiting note) and the trigger that asks for the guess
    to be resolved once the countdown has run out and the price has moved. */
module ActiveGuessView {
  import opened Common
  import opened BitcoinData
  import GameConfig
  import TimeFormat

  /** The live verdict badge. */
  datatype Status = Correct | Incorrect

  /** No verdict without a price or while the price equals the start price;
      otherwise correct exactly when the price moved the predicted way. */
  function PredictionStatus(guess: ClientGuess, price: Option<PricePoint>): (s: Option<Status>)
    ensures price.None? || price.value.price == guess.startPrice ==> s.None?
    ensures price.Some? && price.value.price != guess.startPrice ==>
              s.Some? && (s.value == Correct <==> ((price.value.price > guess.startPrice) == (guess.direction == "up")))
  {
    if price.None? || price.value.price == guess.startPrice then None
    else if (price.value.price > guess.startPrice) == (guess.direction == "up") then Some(Correct)
    else Some(Incorrect)
  }

  /** `!activeGuess?.expiresAt`: no expiry, or an expiry of 0. */
  predicate HasExpiry(guess: ClientGuess)
  {
    guess.expiresAt.Some? && guess.expiresAt.value != 0
  }

  /** Milliseconds left until the expiry (epoch seconds), clamped at zero. */
  function Remaining(expiresAt: int, now: int): (ms: int)
    ensures ms >= 0
    ensures ms == 0 <==> now >= expiresAt * 1000
    ensures ms > 0 ==> ms == expiresAt * 1000 - now
  {
    Max(0, expiresAt * 1000 - now)
  }

  /** The progress bar: remaining time as a percentage of the countdown window,
      clamped to [0, 100]. */
  function Progress(remaining: int): (p: real)
    ensures 0.0 <= p <= 100.0
    ensures remaining >= GameConfig.GuessInterval ==> p == 100.0
    ensures remaining <= 0 ==> p == 0.0
    ensures 0 <= remaining <= GameConfig.GuessInterval ==> p == (remaining as real) * 100.0 / (GameConfig.GuessInterval as real)
  {
    var progress := (remaining as real) / (GameConfig.GuessInterval as real) * 100.0;
    if progress > 100.0 then 100.0 else if progress < 0.0 then 0.0 else progress
  }

  /** "Waiting for price change": the countdown shows zero and the price still equals the start price. */
  predicate ShowWaiting(guess: ClientGuess, price: Option<PricePoint>, remainingMs: int)
    // the note appears only while the trigger holds back and no verdict is shown
    ensures ShowWaiting(guess, price, remainingMs) ==>
              !ShouldResolve(guess, price, remainingMs, false) && PredictionStatus(guess, price).None?
    // once the countdown is over, an unresolved guess with a known price either waits or is resolved
    ensures remainingMs == 0 && price.Some? && !guess.resolved ==>
              (ShowWaiting(guess, price, remainingMs) <==> !ShouldResolve(guess, price, remainingMs, false))
  {
    price.Some? && price.value.price == guess.startPrice && remainingMs == 0
  }

  /** The resolution trigger: the countdown has run out, the guess is not
      resolved, no resolution has been started for it, and a price is known
      and differs from the start price. */
  predicate ShouldResolve(guess: ClientGuess, price: Option<PricePoint>, remaining: int, started: bool)
  {
    remaining <= 0 && !guess.resolved && !started && price.Some? && price.value.price != guess.startPrice
  }

  /** What this card passes to `mutate`: the guess's id, start price and
      direction, and the price that ended the countdown. */
  function ResolvePayload(userId: string, guess: ClientGuess, price: PricePoint): (v: ResolveVars)
    ensures v.userId == userId && v.guessId == guess.id && v.currentPrice == price.price
    ensures v.startPrice == Some(guess.startPrice) && v.direction == Some(guess.direction)
  {
    ResolveVars(userId, guess.id, price.price, Some(guess.startPrice), Some(guess.direction))
  }

  /** One tick of the one-second interval: the clock and the price the card sees. */
  datatype Tick = Tick(now: int, price: Option<PricePoint>)

  /** Whether a tick for `guess` fires the trigger, given the started flag. */
  predicate TickFires(guess: ClientGuess, tick: Tick, started: bool)
  {
    HasExpiry(guess) && ShouldResolve(guess, tick.price, Remaining(guess.expiresAt.value, tick.now), started)
  }

  /** The `mutate` calls a run of ticks for one guess makes, from a given started flag. */
  function Fired(userId: string, guess: ClientGuess, started: bool, ticks: seq<Tick>): seq<ResolveVars>
    decreases |ticks|
  {
    if ticks == [] then []
    else if TickFires(guess, ticks[0], started) then
      [ResolvePayload(userId, guess, ticks[0].price.value)] + Fired(userId, guess, true, ticks[1..])
    else Fired(userId, guess, started, ticks[1..])
  }

  /** One tick at a time: after the first tick of a run has added its calls
      and left its flag behind, the rest of the run adds what remains. */
  lemma FiredStep(userId: string, guess: ClientGuess, started: bool, ticks: seq<Tick>, i: nat,
                  before: seq<ResolveVars>, after: seq<ResolveVars>, startedAfter: bool)
    requires i < |ticks|
    requires after == before + Fired(userId, guess, started, [ticks[i]])
    requires startedAfter == (started || TickFires(guess, ticks[i], started))
    ensures before + Fired(userId, guess, started, ticks[i..]) == after + Fired(userId, guess, startedAfter, ticks[i + 1..])
  {
    assert [ticks[i]][1..] == [];
    assert ticks[i..][0] == ticks[i] && ticks[i..][1..] == ticks[i + 1..];
    if TickFires(guess, ticks[i], started) {
      assert Fired(userId, guess, started, ticks[i..])
          == [ResolvePayload(userId, guess, ticks[i].price.value)] + Fired(userId, guess, true, ticks[i + 1..]);
    } else {
      assert Fired(userId, guess, started, ticks[i..]) == Fired(userId, guess, started, ticks[i + 1..]);
    }
  }

  /** Resolve once: however many ticks arrive for the same guess, at most one
      `mutate` call is made, none once a resolution was started, and it carries
      the guess's own id, start price and direction. */
  lemma {:induction false} FiresAtMostOnce(userId: string, guess: ClientGuess, started: bool, ticks: seq<Tick>)
    ensures |Fired(userId, guess, started, ticks)| <= 1
    ensures started ==> Fired(userId, guess, started, ticks) == []
    ensures forall v :: v in Fired(userId, guess, started, ticks) ==>
              v.guessId == guess.id && v.startPrice == Some(guess.startPrice) && v.direction == Some(guess.direction)
    decreases |ticks|
  {
    if ticks != [] {
      if TickFires(guess, ticks[0], started) {
        FiresAtMostOnce(userId, guess, true, ticks[1..]);
      } else {
        FiresAtMostOnce(userId, guess, started, ticks[1..]);
      }
    }
  }

  /** A firing needs an elapsed countdown and a moved price: no tick before the
      expiry, and no tick at the start price, ever fires. */
  lemma {:induction false} FiringNeedsExpiryAndMove(userId: string, guess: ClientGuess, started: bool, ticks: seq<Tick>)
    requires forall i :: 0 <= i < |ticks| ==>
               (HasExpiry(guess) && ticks[i].now < guess.expiresAt.value * 1000) ||
               ticks[i].price.None? || ticks[i].price.value.price == guess.startPrice || guess.resolved
    ensures Fired(userId, guess, started, ticks) == []
    decreases |ticks|
  {
    if ticks != [] {
      assert !TickFires(guess, ticks[0], started);
      FiringNeedsExpiryAndMove(userId, guess, started, ticks[1..]);
    }
  }

  /** ActiveGuess: the card's state, with the started flag kept in a ref. */
  class GuessTimer {
    var remainingMs: int
    var progressWidth: real
    var predictionStatus: Option<Status>
    var isCompleted: bool
    var hasStartedResolving: bool
    /** The text of the time-remaining element. */
    var timeText: string
    /** The `mutate` calls made so far. */
    var mutations: seq<ResolveVars>

    constructor ()
      ensures remainingMs == 60 && progressWidth == 0.0 && predictionStatus.None? && !isCompleted
      ensures !hasStartedResolving && timeText == "" && mutations == []
    {
      remainingMs := 60;
      progressWidth := 0.0;
      predictionStatus := None;
      isCompleted := false;
      hasStartedResolving := false;
      timeText := "";
      mutations := [];
    }

    /** `updateTimeDisplay`, run on mount and every second. */
    method UpdateTimeDisplay(userId: string, guess: ClientGuess, tick: Tick)
      modifies this
      ensures !HasExpiry(guess) ==>
        remainingMs == old(remainingMs) && progressWidth == old(progressWidth) && timeText == old(timeText)
      ensures HasExpiry(guess) ==>
        var remaining := Remaining(guess.expiresAt.value, tick.now);
        remainingMs == remaining && progressWidth == Progress(remaining) && timeText == TimeFormat.FormatTime(remaining)
      ensures TickFires(guess, tick, old(hasStartedResolving)) ==>
        hasStartedResolving && predictionStatus.None? && isCompleted
      ensures !TickFires(guess, tick, old(hasStartedResolving)) ==>
        hasStartedResolving == old(hasStartedResolving) && predictionStatus == old(predictionStatus) &&
        isCompleted == old(isCompleted)
      ensures mutations == old(mutations) + Fired(userId, guess, old(hasStartedResolving), [tick])
    {
      if !HasExpiry(guess) {
        return;
      }
      var expiresAtMs := guess.expiresAt.value * 1000;
      var remaining := Max(0, expiresAtMs - tick.now);
      remainingMs := remaining;
      var progress := (remaining as real) / (GameConfig.GuessInterval as real) * 100.0;
      progressWidth := if progress > 100.0 then 100.0 else if progress < 0.0 then 0.0 else progress;
      timeText := TimeFormat.FormatTime(remaining);
      if remaining <= 0 && !guess.resolved && !hasStartedResolving && tick.price.Some? && tick.price.value.price != guess.startPrice {
        hasStartedResolving := true;
        mutations := mutations + [ResolveVars(userId, guess.id, tick.price.value.price, Some(guess.startPrice), Some(guess.direction))];
        predictionStatus := None;
        isCompleted := true;
      }
    }

    /** The effect keyed on the guess id: a new guess may be resolved again. */
    method GuessIdChanged()
      modifies this
      ensures !hasStartedResolving
      ensures remainingMs == old(remainingMs) && progressWidth == old(progressWidth) && timeText == old(timeText)
      ensures predictionStatus == old(predictionStatus) && isCompleted == old(isCompleted) && mutations == old(mutations)
    {
      hasStartedResolving := false;
    }

    /** The effect keyed on the price, start price and direction. */
    method PriceChanged(guess: ClientGuess, price: Option<PricePoint>)
      modifies this
      ensures predictionStatus == PredictionStatus(guess, price)
      ensures remainingMs == old(remainingMs) && progressWidth == old(progressWidth) && timeText == old(timeText)
      ensures hasStartedResolving == old(hasStartedResolving) && isCompleted == old(isCompleted) && mutations == old(mutations)
    {
      if price.None? || price.value.price == guess.startPrice {
        predictionStatus := None;
        return;
      }
      var priceIsHigher := price.value.price > guess.startPrice;
      var predictedUp := guess.direction == "up";
      predictionStatus := if priceIsHigher == predictedUp then Some(Correct) else Some(Incorrect);
    }

    /** The interval running over a sequence of ticks for one guess. */
    method RunTicks(userId: string, guess: ClientGuess, ticks: seq<Tick>)
      modifies this
      ensures mutations == old(mutations) + Fired(userId, guess, old(hasStartedResolving), ticks)
      ensures |mutations| <= |old(mutations)| + 1
    {
      ghost var target := mutations + Fired(userId, guess, hasStartedResolving, ticks);
      var i := 0;
      while i < |ticks|
        invariant 0 <= i <= |ticks|
        invariant target == mutations + Fired(userId, guess, hasStartedResolving, ticks[i..])
      {
        ghost var started, before := hasStartedResolving, mutations;
        UpdateTimeDisplay(userId, guess, ticks[i]);
        FiredStep(userId, guess, started, ticks, i, before, mutations, hasStartedResolving);
        i := i + 1;
      }
      assert ticks[i..] == [];
      FiresAtMostOnce(userId, guess, old(hasStartedResolving), ticks);
    }

    /** Whether the waiting note is shown. */
    function WaitingShown(guess: ClientGuess, price: Option<PricePoint>): (shown: bool)
      reads this
      ensures shown ==> remainingMs == 0 && !ShouldResolve(guess, price, remainingMs, hasStartedResolving)
      ensures shown ==> PredictionStatus(guess, price).None?
    {
      ShowWaiting(guess, price, remainingMs)
    }
  }

  /** The older card (ActiveGuessDisplay): the same countdown, with the started
      flag kept in component state and a narrower `mutate` payload. */
  function DisplayResolvePayload(userId: string, guess: ClientGuess, price: PricePoint): (v: ResolveVars)
    ensures v.userId == userId && v.guessId == guess.id && v.currentPrice == price.price
    ensures v.startPrice.None? && v.direction.None?
  {
    ResolveVars(userId, guess.id, price.price, None, None)
  }

  class DisplayTimer {
    var remainingMs: int
    var progressWidth: real
    var predictionStatus: Option<Status>
    var isCompleted: bool
    var isResolving: bool
    var timeText: string
    var mutations: seq<ResolveVars>

    constructor ()
      ensures remainingMs == 60 && progressWidth == 0.0 && predictionStatus.None? && !isCompleted
      ensures !isResolving && timeText == "" && mutations == []
    {
      remainingMs := 60;
      progressWidth := 0.0;
      predictionStatus := None;
      isCompleted := false;
      isResolving := false;
      timeText := "";
      mutations := [];
    }

    /** `updateTimeDisplay` of the older card: the window is a fixed 60000 ms. */
    method UpdateTimeDisplay(userId: string, guess: ClientGuess, tick: Tick)
      modifies this
      ensures !HasExpiry(guess) ==>
        remainingMs == old(remainingMs) && progressWidth == old(progressWidth) && timeText == old(timeText) &&
        isResolving == old(isResolving) && mutations == old(mutations)
      ensures HasExpiry(guess) ==>
        var remaining := Remaining(guess.expiresAt.value, tick.now);
        remainingMs == remaining && progressWidth == Progress(remaining) && timeText == TimeFormat.FormatTime(remaining)
      ensures TickFires(guess, tick, old(isResolving)) ==>
        isResolving && predictionStatus.None? && isCompleted &&
        mutations == old(mutations) + [DisplayResolvePayload(userId, guess, tick.price.value)]
      ensures !TickFires(guess, tick, old(isResolving)) ==>
        isResolving == old(isResolving) && predictionStatus == old(predictionStatus) &&
        isCompleted == old(isCompleted) && mutations == old(mutations)
    {
      if !HasExpiry(guess) {
        return;
      }
      var expiresAtMs := guess.expiresAt.value * 1000;
      var remaining := Max(0, expiresAtMs - tick.now);
      remainingMs := remaining;
      var progress := (remaining as real) / 60000.0 * 100.0;
      progressWidth := if progress > 100.0 then 100.0 else if progress < 0.0 then 0.0 else progress;
      timeText := TimeFormat.FormatTime(remaining);
      if remaining <= 0 && !guess.resolved && !isResolving && tick.price.Some? && tick.price.value.price != guess.startPrice {
        isResolving := true;
        mutations := mutations + [ResolveVars(userId, guess.id, tick.price.value.price, None, None)];
        predictionStatus := None;
        isCompleted := true;
      }
    }

    /** The effect keyed on the guess id clears the flag. */
    method GuessIdChanged()
      modifies this
      ensures !isResolving
      ensures remainingMs == old(remainingMs) && progressWidth == old(progressWidth) && timeText == old(timeText)
      ensures predictionStatus == old(predictionStatus) && isCompleted == old(isCompleted) && mutations == old(mutations)
    {
      isResolving := false;
    }

    /** `getPredictionStatus`, the same rule as the newer card. */
    method PriceChanged(guess: ClientGuess, price: Option<PricePoint>)
      modifies this
      ensures predictionStatus == PredictionStatus(guess, price)
      ensures remainingMs == old(remainingMs) && progressWidth == old(progressWidth) && timeText == old(timeText)
      ensures isResolving == old(isResolving) && isCompleted == old(isCompleted) && mutations == old(mutations)
    {
      if price.None? || price.value.price == guess.startPrice {
        predictionStatus := None;
        return;
      }
      var priceIsHigher := price.value.price > guess.startPrice;
      var predictedUp := guess.direction == "up";
      predictionStatus := if priceIsHigher == predictedUp then Some(Correct) else Some(Incorrect);
    }
  }
}
