/** The live price feed: one socket to the exchange's trade stream, a single
    subscriber callback, and reconnection with exponential backoff after the
    socket closes. */
module PriceSocket {
  import opened Common

  const MaxReconnectAttempts: nat := 5
  const InitialReconnectDelay: int := 1000
  const MaxReconnectDelay: int := 30000

  /** An incoming frame: text that is not JSON, or a JSON object whose `p`
      field (the trade price, as text) may be absent. `parsed` stands for
      `parseFloat(p)`; decimal parsing is not modelled. */
  datatype Message = Unparseable | Frame(p: Option<string>, parsed: real)

  /** A delivered update: the subscriber it went to and the price point. */
  datatype Delivery = Delivery(subscriber: nat, point: PricePoint)

  /** The backoff delay after `k` reconnects scheduled since the last open. */
  function DelayAfter(k: nat): (ms: int)
    ensures 1000 <= ms <= 30000
  {
    if k == 0 then InitialReconnectDelay else Min(DelayAfter(k - 1) * 2, MaxReconnectDelay)
  }

  /** The delay doubles from one second, 1000·2^k ms, until it reaches the
      30-second cap after the fifth reconnect. */
  lemma {:induction false} DelayDoubles(k: nat)
    ensures k <= 4 ==> DelayAfter(k) == 1000 * Pow2(k)
    ensures k >= 5 ==> DelayAfter(k) == MaxReconnectDelay
  {
    if k > 0 {
      DelayDoubles(k - 1);
    }
  }

  /** The delays of the reconnects scheduled by `n` consecutive closes, starting
      after `k` reconnects: each close schedules one while fewer than five were made. */
  function ScheduledDelays(k: nat, n: nat): seq<int>
    decreases n
  {
    if n == 0 then []
    else if k < MaxReconnectAttempts then [DelayAfter(k)] + ScheduledDelays(k + 1, n - 1)
    else ScheduledDelays(k, n - 1)
  }

  /** From a fresh connection, however often the socket keeps closing, at most
      five reconnects are scheduled, after 1, 2, 4, 8 and 16 seconds. */
  lemma {:induction false} ReconnectsAreBounded(k: nat, n: nat)
    requires k <= MaxReconnectAttempts
    ensures |ScheduledDelays(k, n)| == Min(n, MaxReconnectAttempts - k)
    ensures forall i :: 0 <= i < |ScheduledDelays(k, n)| ==> ScheduledDelays(k, n)[i] == DelayAfter(k + i)
    decreases n
  {
    if n > 0 && k < MaxReconnectAttempts {
      ReconnectsAreBounded(k + 1, n - 1);
    } else if n > 0 {
      ReconnectsAreBounded(k, n - 1);
    }
    forall i | 0 <= i < |ScheduledDelays(k, n)|
      ensures ScheduledDelays(k, n)[i] == DelayAfter(k + i)
    {
      ScheduledDelayAt(k, n, i);
    }
  }

  /** The `i`-th scheduled reconnect waits the backoff delay for `k + i` reconnects. */
  lemma {:induction false} ScheduledDelayAt(k: nat, n: nat, i: nat)
    requires i < |ScheduledDelays(k, n)|
    ensures ScheduledDelays(k, n)[i] == DelayAfter(k + i)
    decreases n
  {
    if k >= MaxReconnectAttempts {
      ScheduledDelayAt(k, n - 1, i);
    } else if i > 0 {
      ScheduledDelayAt(k + 1, n - 1, i - 1);
      assert k + 1 + (i - 1) == k + i;
    }
  }

  lemma FreshScheduleIsDoubling()
    ensures ScheduledDelays(0, 7) == [1000, 2000, 4000, 8000, 16000]
  {
    assert DelayAfter(0) == 1000 && DelayAfter(1) == 2000 && DelayAfter(2) == 4000;
    assert DelayAfter(3) == 8000 && DelayAfter(4) == 16000;
  }

  class Service {
    /** Whether the service holds a socket (`ws` is not null). */
    var hasSocket: bool
    var reconnectAttempts: nat
    var reconnectDelay: int
    var callback: Option<nat>
    /** Reconnect timers scheduled so far, by delay. */
    var scheduled: seq<int>

    /** The backoff state follows the attempt count. */
    ghost predicate Valid()
      reads this
    {
      reconnectAttempts <= MaxReconnectAttempts && reconnectDelay == DelayAfter(reconnectAttempts)
    }

    /** Construction connects at once. */
    constructor ()
      ensures Valid() && hasSocket && reconnectAttempts == 0 && callback.None? && scheduled == []
    {
      hasSocket := true;
      reconnectAttempts := 0;
      reconnectDelay := InitialReconnectDelay;
      callback := None;
      scheduled := [];
    }

    /** `onopen`: the backoff starts over. */
    method OnOpen()
      requires Valid()
      modifies this
      ensures Valid() && reconnectAttempts == 0 && reconnectDelay == InitialReconnectDelay
      ensures hasSocket == old(hasSocket) && callback == old(callback) && scheduled == old(scheduled)
    {
      reconnectAttempts := 0;
      reconnectDelay := 1000;
    }

    /** `onclose` (also reached from `onerror`, which closes the socket, and from
      `disconnect`): `handleReconnect`. */
    method OnClose()
      requires Valid()
      modifies this
      ensures Valid()
      ensures old(reconnectAttempts) < MaxReconnectAttempts ==>
                reconnectAttempts == old(reconnectAttempts) + 1 && scheduled == old(scheduled) + [old(reconnectDelay)]
      ensures old(reconnectAttempts) >= MaxReconnectAttempts ==>
                reconnectAttempts == old(reconnectAttempts) && scheduled == old(scheduled)
      ensures scheduled == old(scheduled) + ScheduledDelays(old(reconnectAttempts), 1)
      ensures hasSocket == old(hasSocket) && callback == old(callback)
    {
      if reconnectAttempts < MaxReconnectAttempts {
        reconnectAttempts := reconnectAttempts + 1;
        scheduled := scheduled + [reconnectDelay];
        reconnectDelay := Min(reconnectDelay * 2, MaxReconnectDelay);
      }
    }

    /** A reconnect timer fires: `connect` opens a new socket. */
    method ReconnectTimerFired()
      requires Valid()
      modifies this
      ensures Valid() && hasSocket
      ensures reconnectAttempts == old(reconnectAttempts) && callback == old(callback) && scheduled == old(scheduled)
    {
      hasSocket := true;
    }

    method Subscribe(subscriber: nat)
      modifies this
      ensures callback == Some(subscriber)
      ensures hasSocket == old(hasSocket) && reconnectAttempts == old(reconnectAttempts)
      ensures reconnectDelay == old(reconnectDelay) && scheduled == old(scheduled)
    {
      callback := Some(subscriber);
    }

    method Unsubscribe()
      modifies this
      ensures callback.None?
      ensures hasSocket == old(hasSocket) && reconnectAttempts == old(reconnectAttempts)
      ensures reconnectDelay == old(reconnectDelay) && scheduled == old(scheduled)
    {
      callback := None;
    }

    /** `disconnect` closes and drops the socket. The closed socket's `onclose`
      still runs afterwards (`OnClose`), so a reconnect can follow a disconnect. */
    method Disconnect()
      modifies this
      ensures !hasSocket
      ensures callback == old(callback) && reconnectAttempts == old(reconnectAttempts)
      ensures reconnectDelay == old(reconnectDelay) && scheduled == old(scheduled)
    {
      if hasSocket {
        hasSocket := false;
      }
    }

    /** `onmessage`: a frame with a non-empty `p` goes to the subscriber, if any,
      stamped with the local clock; anything else is dropped. */
    method OnMessage(msg: Message, now: int) returns (delivered: Option<Delivery>)
      ensures delivered.Some? <==> msg.Frame? && PresentString(msg.p) && callback.Some?
      ensures delivered.Some? ==> delivered.value == Delivery(callback.value, PricePoint(msg.parsed, now))
    {
      if msg.Unparseable? {
        return None;
      }
      if PresentString(msg.p) {
        var point := PricePoint(msg.parsed, now);
        if callback.Some? {
          return Some(Delivery(callback.value, point));
        }
      }
      return None;
    }
  }

  /** After an unsubscribe no message is delivered. */
  method UnsubscribedDropsMessages(s: Service, msg: Message, now: int) returns (delivered: Option<Delivery>)
    modifies s
    ensures delivered.None?
  {
    s.Unsubscribe();
    delivered := s.OnMessage(msg, now);
  }
}
