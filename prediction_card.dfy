/** The card with the two prediction buttons: the client-side guard before a
    guess is created, the disabled state of the buttons, and the offline flag. */
module PredictionCard {
  import opened Common
  import opened BitcoinData

  /** `!currentPrice?.price`: no price, or a price of 0. */
  predicate HasPrice(price: Option<PricePoint>)
  {
    price.Some? && price.value.price != 0.0
  }

  /** `!userId` for a nullable user id: null or "". */
  predicate HasUser(userId: Option<string>)
  {
    userId.Some? && userId.value != ""
  }

  /** The buttons are disabled while loading, without a price or a user, while a
      create is pending, or offline. */
  predicate IsDisabled(isLoading: bool, price: Option<PricePoint>, userId: Option<string>, isPending: bool, isOffline: bool)
    // every click the guard refuses for a missing user or a lost connection comes from a disabled button
    ensures !HasUser(userId) || isOffline ==> IsDisabled(isLoading, price, userId, isPending, isOffline)
    // a price of 0 leaves the buttons enabled, although the guard ignores their clicks
    ensures !isLoading && price.Some? && price.value.price == 0.0 && HasUser(userId) && !isPending && !isOffline ==>
              !IsDisabled(isLoading, price, userId, isPending, isOffline) && !HasPrice(price)
  {
    isLoading || price.None? || !HasUser(userId) || isPending || isOffline
  }

  /** Buttons that are enabled pass the click guard unless the price is 0: the
      disabled test looks only at whether a price exists. */
  lemma EnabledButtonsPassGuardUnlessZeroPrice(isLoading: bool, price: Option<PricePoint>, userId: Option<string>,
                                               isPending: bool, isOffline: bool)
    requires !IsDisabled(isLoading, price, userId, isPending, isOffline)
    ensures HasPrice(price) <==> price.value.price != 0.0
    ensures HasUser(userId) && !isOffline
  {
  }

  class Card {
    /** The direction of the last click that got past the guard. */
    var direction: Option<Direction>
    var isOffline: bool
    /** The `mutateAsync` calls made so far. */
    var mutations: seq<MakeGuessVars>

    /** Mount: the flag starts as the negation of `navigator.onLine`. */
    constructor (online: bool)
      ensures direction.None? && isOffline == !online && mutations == []
    {
      direction := None;
      isOffline := !online;
      mutations := [];
    }

    method Online()
      modifies this
      ensures !isOffline && direction == old(direction) && mutations == old(mutations)
    {
      isOffline := false;
    }

    method Offline()
      modifies this
      ensures isOffline && direction == old(direction) && mutations == old(mutations)
    {
      isOffline := true;
    }

    /** `handleMakeGuess`: with a non-zero price, a user and a connection, record
      the direction and call `mutateAsync` once; otherwise do nothing. A
      rejected mutation is caught and logged, so the click never fails. */
    method HandleMakeGuess(guessDirection: Direction, price: Option<PricePoint>, userId: Option<string>)
      modifies this
      ensures isOffline == old(isOffline)
      ensures !HasPrice(price) || !HasUser(userId) || old(isOffline) ==>
                direction == old(direction) && mutations == old(mutations)
      ensures HasPrice(price) && HasUser(userId) && !old(isOffline) ==>
                direction == Some(guessDirection) &&
                mutations == old(mutations) + [MakeGuessVars(userId.value, guessDirection, price.value.price)]
    {
      if price.None? || price.value.price == 0.0 || userId.None? || userId.value == "" || isOffline {
        return;
      }
      direction := Some(guessDirection);
      mutations := mutations + [MakeGuessVars(userId.value, guessDirection, price.value.price)];
    }
  }

  /** A run of clicks with the card's inputs fixed. */
  function Clicks(directions: seq<Direction>, price: Option<PricePoint>, userId: Option<string>, offline: bool)
    : seq<MakeGuessVars>
  {
    if !HasPrice(price) || !HasUser(userId) || offline then []
    else seq(|directions|, i requires 0 <= i < |directions| => MakeGuessVars(userId.value, directions[i], price.value.price))
  }

  /** One create per accepted click, each carrying the clicked direction and the shown price. */
  lemma ClicksAreOnePerAcceptedClick(directions: seq<Direction>, price: Option<PricePoint>, userId: Option<string>, offline: bool)
    ensures var calls := Clicks(directions, price, userId, offline);
      && (|calls| == |directions| || calls == [])
      && (calls == [] <==> directions == [] || !HasPrice(price) || !HasUser(userId) || offline)
      && forall i :: 0 <= i < |calls| ==> calls[i].direction == directions[i] && calls[i].currentPrice == price.value.price
  {
  }

  /** A method run of clicks matches `Clicks`. */
  method ClickAll(card: Card, directions: seq<Direction>, price: Option<PricePoint>, userId: Option<string>)
    modifies card
    ensures card.mutations == old(card.mutations) + Clicks(directions, price, userId, old(card.isOffline))
    ensures card.isOffline == old(card.isOffline)
  {
    var i := 0;
    while i < |directions|
      invariant 0 <= i <= |directions|
      invariant card.isOffline == old(card.isOffline)
      invariant card.mutations == old(card.mutations) + Clicks(directions[..i], price, userId, old(card.isOffline))
    {
      card.HandleMakeGuess(directions[i], price, userId);
      assert Clicks(directions[..i + 1], price, userId, old(card.isOffline))
          == Clicks(directions[..i], price, userId, old(card.isOffline)) +
             (if !HasPrice(price) || !HasUser(userId) || old(card.isOffline) then []
              else [MakeGuessVars(userId.value, directions[i], price.value.price)]);
      i := i + 1;
    }
    assert directions[..i] == directions;
  }
}
